/** The set-up steps that change the host, each with the cleanups it registers:
    the network namespace, the CNI network, the fifos. */
module HostSetup {
  import opened Text
  import opened Undo

  class Host {
    var world: World

    constructor (w: World)
      ensures world == w
    {
      world := w;
    }
  }

  // ---------- directories ----------

  /** The first level of p that does not exist, |p| + 1 if all do. */
  function FirstMissing(fs: map<Path, Kind>, p: Path, n: nat): (k: nat)
    requires n <= |p| + 1
    ensures n <= k <= |p| + 1
    ensures forall i :: n <= i < k ==> p[..i] in fs
    ensures k <= |p| ==> p[..k] !in fs
    decreases |p| + 1 - n
  {
    if n == |p| + 1 || p[..n] !in fs then n else FirstMissing(fs, p, n + 1)
  }

  /** Some proper ancestor is a file, so that looking p up fails with something other than "does not exist". */
  predicate Blocked(fs: map<Path, Kind>, p: Path) {
    exists i :: 0 <= i < |p| && p[..i] in fs && fs[p[..i]] == File
  }

  /** fs with p's levels `from` to `to`, inclusive, made as directories. */
  function WithLevels(fs: map<Path, Kind>, p: Path, from: nat, upto: int): map<Path, Kind>
    requires upto <= |p|
    decreases upto
  {
    if upto < from then fs else WithLevels(fs, p, from, upto - 1)[p[..upto] := Dir]
  }

  /** What may go wrong while a namespace is set up; `mkdirLevels` is how many levels
      MkdirAll creates before it fails, when it fails. */
  datatype NetNSLuck = NetNSLuck(
    checkFails: bool, statFails: bool, mkdirFails: bool, mkdirLevels: nat,
    openFails: bool, unshareFails: bool, mountFails: bool)

  /** When initializeNetNS succeeds: the path is a namespace, or nothing is in the way of making one. */
  predicate NetNSGoes(w: World, path: Path, luck: NetNSLuck) {
    && !luck.checkFails
    && (path in w.mounts
        || (path !in w.fs && path != [] && !luck.statFails && !Blocked(w.fs, Parent(path))
            && (if Parent(path) in w.fs then w.fs[Parent(path)] == Dir else !luck.mkdirFails)
            && !luck.openFails && !luck.unshareFails && !luck.mountFails))
  }

  datatype NetNSError = CheckError | NotANamespace | MkdirError | StatError | OpenError | UnshareError | MountError

  /** At most the last directory level above the namespace path is missing. */
  predicate OneLevelMissing(w: World, path: Path) {
    path != [] && (Parent(path) in w.fs || (Parent(path) != [] && Parent(Parent(path)) in w.fs))
  }

  lemma {:induction false} LevelsDomain(fs: map<Path, Kind>, p: Path, from: nat, upto: int)
    requires upto <= |p|
    ensures forall q :: q in fs ==> q in WithLevels(fs, p, from, upto)
    ensures forall q :: q in WithLevels(fs, p, from, upto) ==> q in fs || (|q| <= upto && from <= |q| && q == p[..|q|])
    ensures forall i :: from <= i <= upto ==> p[..i] in WithLevels(fs, p, from, upto)
    decreases upto
  {
    if upto >= from {
      LevelsDomain(fs, p, from, upto - 1);
    }
  }

  lemma {:induction false} DirMade(w: World, p: Path)
    requires WellFormed(w) && p != [] && Parent(p) in w.fs && w.fs[Parent(p)] == Dir && p !in w.mounts
    ensures WellFormed(w.(fs := w.fs[p := Dir]))
  {
  }

  /** MkdirAll keeps the tree a tree. */
  lemma {:induction false} LevelsWellFormed(w: World, p: Path, upto: int)
    requires WellFormed(w) && !Blocked(w.fs, p) && upto <= |p| && p !in w.fs
    ensures WellFormed(w.(fs := WithLevels(w.fs, p, FirstMissing(w.fs, p, 0), upto)))
    decreases upto
  {
    var k := FirstMissing(w.fs, p, 0);
    if upto >= k {
      LevelsWellFormed(w, p, upto - 1);
      assert k > 0 by { assert p[..0] == []; }
      var before := w.(fs := WithLevels(w.fs, p, k, upto - 1));
      assert p[..upto - 1] in before.fs && before.fs[p[..upto - 1]] == Dir;
      assert p[..upto] !in w.fs by { MissingBelow(w, p, k, upto); }
      assert Parent(p[..upto]) == p[..upto - 1];
      assert p[..upto] !in before.mounts;
      DirMade(before, p[..upto]);
    }
  }

  /** A missing level makes every deeper one missing too. */
  lemma {:induction false} MissingBelow(w: World, p: Path, i: nat, j: nat)
    requires WellFormed(w) && i <= j <= |p| && p[..i] !in w.fs
    ensures p[..j] !in w.fs
    decreases j - i
  {
    if i < j {
      MissingBelow(w, p, i, j - 1);
      assert Parent(p[..j]) == p[..j - 1];
    }
  }

  /** What MkdirAll and its cleanup leave behind: the levels it made above the parent. */
  function Leftover(w: World, path: Path): World
    requires path != []
  {
    var parent := Parent(path);
    w.(fs := WithLevels(w.fs, parent, FirstMissing(w.fs, parent, 0), |parent| - 1))
  }

  /** What a MkdirAll that fails after making some levels leaves behind, with no cleanup registered. */
  function Partway(w: World, path: Path, levels: nat): World
    requires path != []
  {
    var parent := Parent(path);
    var k := FirstMissing(w.fs, parent, 0);
    w.(fs := WithLevels(w.fs, parent, k, Reached(k, levels, |parent|)))
  }

  /** The last level made by a MkdirAll that fails; it never makes the last of all. */
  function Reached(k: nat, levels: nat, n: nat): int {
    if k + levels < n then k + levels - 1 else n - 1
  }

  /** Making levels changes something exactly when there is one to make. */
  lemma {:induction false} LevelsChange(fs: map<Path, Kind>, p: Path, upto: int)
    requires upto <= |p|
    ensures WithLevels(fs, p, FirstMissing(fs, p, 0), upto) == fs <==> upto < FirstMissing(fs, p, 0)
  {
    var k := FirstMissing(fs, p, 0);
    if k <= upto {
      LevelsDomain(fs, p, k, upto);
      assert p[..k] in WithLevels(fs, p, k, upto);
    }
  }

  /** It leaves nothing exactly when it made no level, or there was but one to make. */
  lemma {:induction false} PartwayIff(w: World, path: Path, levels: nat)
    requires WellFormed(w) && path != []
    ensures Partway(w, path, levels) == w <==> levels == 0 || OneLevelMissing(w, path)
  {
    var parent := Parent(path);
    LevelsChange(w.fs, parent, Reached(FirstMissing(w.fs, parent, 0), levels, |parent|));
    LeftoverIff(w, path);
  }

  /** What initializeNetNS and its cleanups leave of a path's missing levels, by how it ended. */
  function Remains(w: World, path: Path, e: Option<NetNSError>, levels: nat): World {
    if path in w.fs || path == [] then w
    else
      match e
      case Some(CheckError) => w
      case Some(NotANamespace) => w
      case Some(StatError) => w
      case Some(MkdirError) => Partway(w, path, levels)
      case _ => Leftover(w, path)
  }

  predicate MadeNoLevel(e: NetNSError, levels: nat) {
    e.CheckError? || e.NotANamespace? || e.StatError? || (e.MkdirError? && levels == 0)
  }

  /** Nothing remains exactly when at most one level was missing, or none was made. */
  lemma {:induction false} RemainsIff(w: World, path: Path, e: Option<NetNSError>, levels: nat)
    requires WellFormed(w)
    ensures Remains(w, path, e, levels) == w <==>
            || path in w.fs || OneLevelMissing(w, path)
            || (e.Some? && MadeNoLevel(e.value, levels))
  {
    if path !in w.fs {
      LeftoverIff(w, path);
      PartwayIff(w, path, levels);
    }
  }

  lemma {:induction false} RemainsGrows(w: World, path: Path, e: Option<NetNSError>, levels: nat)
    ensures forall q :: q in w.fs ==> q in Remains(w, path, e, levels).fs
    ensures Remains(w, path, e, levels) == w.(fs := Remains(w, path, e, levels).fs)
  {
    if path !in w.fs && path != [] {
      var parent := Parent(path);
      var k := FirstMissing(w.fs, parent, 0);
      LevelsDomain(w.fs, parent, k, |parent| - 1);
      LevelsDomain(w.fs, parent, k, Reached(k, levels, |parent|));
    }
  }

  /** From before to after entries were only added, and none but path and what is above it. */
  predicate GrownTowards(before: World, after: World, path: Path) {
    && (forall q :: q in before.fs ==> q in after.fs && after.fs[q] == before.fs[q])
    && (forall q :: q in after.fs ==> q in before.fs || q <= path)
    && after.vmm == before.vmm
  }

  /** Nothing is left behind exactly when at most one level was missing. */
  lemma {:induction false} LeftoverIff(w: World, path: Path)
    requires WellFormed(w) && path != []
    ensures Leftover(w, path) == w <==> OneLevelMissing(w, path)
    ensures OneLevelMissing(w, path) <==> FirstMissing(w.fs, Parent(path), 0) >= |Parent(path)|
  {
    var parent := Parent(path);
    var k := FirstMissing(w.fs, parent, 0);
    assert parent[..|parent|] == parent;
    LevelsDomain(w.fs, parent, k, |parent| - 1);
    if k < |parent| {
      MissingBelow(w, parent, k, |parent|);
      MissingBelow(w, parent, k, |parent| - 1);
      assert parent[..k] in Leftover(w, path).fs;
    } else if parent != [] {
      assert parent[..|parent| - 1] in w.fs;
    }
  }

  // ---------- the stages of a namespace, each undone ----------

  /** A freshly made directory has nothing in it. */
  lemma {:induction false} NewDirChildless(w: World, p: Path)
    requires WellFormed(w) && p !in w.fs
    ensures Childless(w.(fs := WithLevels(w.fs, p, FirstMissing(w.fs, p, 0), |p|)), p)
  {
    var k := FirstMissing(w.fs, p, 0);
    var now := WithLevels(w.fs, p, k, |p|);
    LevelsDomain(w.fs, p, k, |p|);
    forall q | q in now && q != []
      ensures Parent(q) != p
    {
      if q in w.fs {
        assert Parent(q) in w.fs;
      }
    }
  }

  lemma {:induction false} NotAmongLevels(w: World, p: Path, k: nat)
    requires p !in w.fs
    ensures p !in WithLevels(w.fs, p, k, |p| - 1)
  {
    LevelsDomain(w.fs, p, k, |p| - 1);
  }

  lemma {:induction false} ParentUnwinds(w: World, path: Path)
    requires WellFormed(w) && path != [] && Parent(path) !in w.fs
    ensures var parent := Parent(path);
            Unwinds(Leftover(w, path), w.(fs := WithLevels(w.fs, parent, FirstMissing(w.fs, parent, 0), |parent|)), [Remove(parent)])
  {
    var parent := Parent(path);
    var k := FirstMissing(w.fs, parent, 0);
    assert parent[..|parent|] == parent && k <= |parent|;
    var base := Leftover(w, path);
    var now := w.(fs := WithLevels(w.fs, parent, k, |parent|));
    assert now.fs == base.fs[parent := Dir];
    NotAmongLevels(w, parent, k);
    NewDirChildless(w, parent);
    assert Without(now, parent).fs == base.fs;
    UnwindsOne(base, now, Remove(parent));
  }

  lemma {:induction false} FileUnwinds(w: World, path: Path, c: Cleanup)
    requires WellFormed(w) && path != [] && path !in w.fs && (c == Remove(path) || c == RemoveIfPresent(path))
    ensures Unwinds(w, w.(fs := w.fs[path := File]), [c])
  {
    var now := w.(fs := w.fs[path := File]);
    assert Without(now, path).fs == w.fs;
    UnwindsOne(w, now, c);
  }

  lemma {:induction false} MountUnwinds(w: World, path: Path)
    requires path !in w.mounts
    ensures Unwinds(w, w.(mounts := w.mounts + {path}), [Unmount(path)])
  {
    var now := w.(mounts := w.mounts + {path});
    assert now.mounts - {path} == w.mounts;
    UnwindsOne(w, now, Unmount(path));
  }

  lemma {:induction false} FileWellFormed(w: World, path: Path)
    requires WellFormed(w) && path != [] && path !in w.fs && Parent(path) in w.fs && w.fs[Parent(path)] == Dir
    ensures WellFormed(w.(fs := w.fs[path := File]))
    ensures WellFormed(w.(fs := w.fs[path := File], mounts := w.mounts + {path}))
  {
  }

  /** os.MkdirAll of the missing parent directory. */
  method MakeLevels(host: Host, path: Path, luck: NetNSLuck) returns (ok: bool)
    requires WellFormed(host.world) && path != [] && path !in host.world.fs
    requires Parent(path) !in host.world.fs && !Blocked(host.world.fs, Parent(path))
    modifies host
    ensures WellFormed(host.world) && path !in host.world.fs
    ensures GrownTowards(old(host.world), host.world, path)
    ensures host.world.nets == old(host.world.nets) && host.world.mounts == old(host.world.mounts)
    ensures ok <==> !luck.mkdirFails
    ensures !ok ==> host.world == Partway(old(host.world), path, luck.mkdirLevels)
    ensures ok ==> Parent(path) in host.world.fs && host.world.fs[Parent(path)] == Dir
    ensures ok ==> Unwinds(Leftover(old(host.world), path), host.world, [Remove(Parent(path))])
  {
    var parent := Parent(path);
    var k := FirstMissing(host.world.fs, parent, 0);
    assert parent[..|parent|] == parent;
    var upto := |parent|;
    if luck.mkdirFails {
      upto := Reached(k, luck.mkdirLevels, |parent|);
    } else {
      ParentUnwinds(host.world, path);
    }
    LevelsWellFormed(host.world, parent, upto);
    LevelsGrow(host.world, path, upto);
    host.world := host.world.(fs := WithLevels(host.world.fs, parent, k, upto));
    ok := !luck.mkdirFails;
  }

  lemma {:induction false} LevelsGrow(w: World, path: Path, upto: int)
    requires WellFormed(w) && path != [] && path !in w.fs && Parent(path) !in w.fs && upto <= |Parent(path)|
    ensures var parent := Parent(path);
            var after := w.(fs := WithLevels(w.fs, parent, FirstMissing(w.fs, parent, 0), upto));
            && GrownTowards(w, after, path) && path !in after.fs
            && (upto == |parent| ==> parent in after.fs && after.fs[parent] == Dir)
  {
    var parent := Parent(path);
    var k := FirstMissing(w.fs, parent, 0);
    assert parent[..|parent|] == parent;
    forall i | k <= i <= |parent|
      ensures parent[..i] !in w.fs
    {
      MissingBelow(w, parent, k, i);
    }
    LevelsDomain(w.fs, parent, k, upto);
    LevelsKept(w.fs, parent, k, upto);
    forall q | q in WithLevels(w.fs, parent, k, upto)
      ensures q in w.fs || (q <= path && q != path)
    {
      if q !in w.fs {
        assert |q| <= |parent| && q == parent[..|q|] && parent[..|q|] == path[..|q|];
      }
    }
  }

  lemma {:induction false} LevelsKept(fs: map<Path, Kind>, p: Path, from: nat, upto: int)
    requires upto <= |p| && forall i :: from <= i <= |p| ==> p[..i] !in fs
    ensures forall q :: q in fs ==> q in WithLevels(fs, p, from, upto) && WithLevels(fs, p, from, upto)[q] == fs[q]
    decreases upto
  {
    if upto >= from {
      LevelsKept(fs, p, from, upto - 1);
    }
  }

  /** initializeNetNS, up to the parent directory. */
  method MakeParent(host: Host, path: Path, luck: NetNSLuck) returns (err: Option<NetNSError>, cleanups: seq<Cleanup>)
    requires WellFormed(host.world) && path != [] && path !in host.world.fs
    modifies host
    ensures WellFormed(host.world) && path !in host.world.fs
    ensures GrownTowards(old(host.world), host.world, path)
    ensures host.world.nets == old(host.world.nets) && host.world.mounts == old(host.world.mounts)
    ensures forall i :: 0 <= i < |cleanups| ==> !TouchesNets(cleanups[i])
    ensures NamesWithin(old(host.world), path, cleanups)
    ensures err.None? <==>
            && !luck.statFails && !Blocked(old(host.world.fs), Parent(path))
            && !(luck.mkdirFails && Parent(path) !in old(host.world.fs))
    ensures err.None? ==> Parent(path) in host.world.fs
    ensures err.None? ==> host.world.fs[Parent(path)] ==
                          if Parent(path) in old(host.world.fs) then old(host.world.fs)[Parent(path)] else Dir
    ensures OneLevelMissing(old(host.world), path) ==> Unwinds(old(host.world), host.world, cleanups)
    // a failure registers nothing; one of MkdirAll leaves the levels it made
    ensures err.Some? ==> cleanups == [] && (err.value == StatError || err.value == MkdirError)
    ensures err == Some(StatError) <==> luck.statFails || Blocked(old(host.world.fs), Parent(path))
    ensures err == Some(StatError) ==> host.world == old(host.world)
    ensures err == Some(MkdirError) ==> host.world == Partway(old(host.world), path, luck.mkdirLevels)
    ensures err.None? ==>
              Unwinds(if Parent(path) in old(host.world.fs) then old(host.world) else Leftover(old(host.world), path), host.world, cleanups)
  {
    cleanups := [];
    var parent := Parent(path);
    LeftoverIff(host.world, path);
    if luck.statFails || Blocked(host.world.fs, parent) {
      return Some(StatError), cleanups;
    }
    if parent !in host.world.fs {
      PartwayIff(host.world, path, luck.mkdirLevels);
      var ok := MakeLevels(host, path, luck);
      if !ok {
        return Some(MkdirError), cleanups;
      }
      cleanups := [Remove(parent)];
    }
    err := None;
  }

  /** initializeNetNS, from opening the file to mounting the namespace on it. */
  method MountNamespace(host: Host, path: Path, luck: NetNSLuck) returns (err: Option<NetNSError>, cleanups: seq<Cleanup>)
    requires WellFormed(host.world) && path != [] && path !in host.world.fs && Parent(path) in host.world.fs
    modifies host
    ensures WellFormed(host.world) && host.world.nets == old(host.world.nets)
    ensures err.Some? ==> err.value == OpenError || err.value == UnshareError || err.value == MountError
    ensures GrownTowards(old(host.world), host.world, path)
    ensures forall i :: 0 <= i < |cleanups| ==> !TouchesNets(cleanups[i])
    ensures NamesWithin(old(host.world), path, cleanups)
    ensures err.None? <==>
            !luck.openFails && old(host.world.fs)[Parent(path)] == Dir && !luck.unshareFails && !luck.mountFails
    ensures err.None? ==>
              host.world == old(host.world).(fs := old(host.world.fs)[path := File], mounts := old(host.world.mounts) + {path})
    ensures Unwinds(old(host.world), host.world, cleanups)
  {
    cleanups := [];
    if luck.openFails || host.world.fs[Parent(path)] == File {
      return Some(OpenError), cleanups;
    }
    FileWellFormed(host.world, path);
    FileUnwinds(host.world, path, Remove(path));
    ghost var before := host.world;
    host.world := host.world.(fs := host.world.fs[path := File]);
    cleanups := cleanups + [Remove(path)];
    if luck.unshareFails {
      return Some(UnshareError), cleanups;
    }
    if luck.mountFails {
      return Some(MountError), cleanups;
    }
    ghost var between := host.world;
    MountUnwinds(host.world, path);
    host.world := host.world.(mounts := host.world.mounts + {path});
    UnwindsCompose(before, between, host.world, cleanups, [Unmount(path)]);
    cleanups := cleanups + [Unmount(path)];
    err := None;
  }

  /** initializeNetNS. */
  method InitializeNetNS(host: Host, path: Path, luck: NetNSLuck) returns (err: Option<NetNSError>, cleanups: seq<Cleanup>)
    requires WellFormed(host.world)
    modifies host
    ensures WellFormed(host.world)
    ensures host.world.nets == old(host.world.nets)
    ensures GrownTowards(old(host.world), host.world, path)
    ensures forall i :: 0 <= i < |cleanups| ==> !TouchesNets(cleanups[i])
    ensures NamesWithin(old(host.world), path, cleanups)
    ensures err.None? <==> NetNSGoes(old(host.world), path, luck)
    // success: the path is a mounted namespace, either found or made here
    ensures err.None? ==> path in host.world.mounts
    ensures path in old(host.world.mounts) && err.None? ==> host.world == old(host.world) && cleanups == []
    ensures err.None? && path !in old(host.world.mounts) ==>
              host.world.fs[path] == File && host.world.mounts == old(host.world.mounts) + {path}
    // however it ends, the cleanups lead back to the start but for levels of the path above
    ensures Unwinds(Remains(old(host.world), path, err, luck.mkdirLevels), host.world, cleanups)
  {
    cleanups := [];
    if luck.checkFails {
      return Some(CheckError), cleanups;
    }
    if path in host.world.mounts {
      return None, cleanups;
    }
    if path in host.world.fs {
      return Some(NotANamespace), cleanups;
    }
    ghost var base := if Parent(path) in host.world.fs then host.world else Leftover(host.world, path);
    LeftoverIff(host.world, path);
    err, cleanups := MakeParent(host, path, luck);
    if err.None? {
      var more;
      ghost var between := host.world;
      err, more := MountNamespace(host, path, luck);
      UnwindsCompose(base, between, host.world, cleanups, more);
      cleanups := cleanups + more;
    }
  }

  // ---------- CNI ----------

  /** What may go wrong with the plugins; a failing ADD may leave something behind. */
  datatype CNILuck = CNILuck(loadFails: bool, delFails: bool, addFails: bool, addLeaves: bool)

  /** When invokeCNI gets as far as registering its delete. */
  predicate CNIRegisters(configGiven: bool, force: bool, luck: CNILuck) {
    (configGiven || !luck.loadFails) && (!luck.delFails || force)
  }

  predicate CNIGoes(configGiven: bool, force: bool, luck: CNILuck) {
    CNIRegisters(configGiven, force, luck) && !luck.addFails
  }

  datatype CNIError = LoadError | DeleteError | AddError

  /** invokeCNI. `configGiven`: the network configuration came with the interface. */
  method InvokeCNI(host: Host, net: Attachment, configGiven: bool, force: bool, luck: CNILuck)
    returns (err: Option<CNIError>, cleanups: seq<Cleanup>)
    requires WellFormed(host.world)
    modifies host
    ensures WellFormed(host.world)
    ensures host.world == old(host.world).(nets := host.world.nets)
    ensures forall n :: n != net ==>
              (n in host.world.nets <==> n in old(host.world.nets))
              && (n in host.world.nets ==> host.world.nets[n] == old(host.world.nets)[n])
    ensures err.None? <==> CNIGoes(configGiven, force, luck)
    ensures err.None? ==> net in host.world.nets && host.world.nets[net] == Complete
    // nothing was attempted before the delete was registered
    ensures cleanups == [] ==> host.world == old(host.world) && err.Some? && err != Some(AddError)
    // from then on the registered delete takes everything away, half-done additions included
    ensures cleanups == if CNIRegisters(configGiven, force, luck) then [DeleteNetwork(net)] else []
    ensures cleanups != [] ==> Unwinds(Detached(old(host.world), net), host.world, cleanups)
  {
    cleanups := [];
    if !configGiven && luck.loadFails {
      return Some(LoadError), cleanups;
    }
    if luck.delFails {
      if !force {
        return Some(DeleteError), cleanups;
      }
    } else {
      host.world := Detached(host.world, net);
    }
    cleanups := [DeleteNetwork(net)];
    if luck.addFails {
      if luck.addLeaves {
        host.world := host.world.(nets := host.world.nets[net := Partial]);
      }
      err := Some(AddError);
    } else {
      host.world := host.world.(nets := host.world.nets[net := Complete]);
      err := None;
    }
    assert Detached(host.world, net).nets == Detached(old(host.world), net).nets;
    UnwindsOne(Detached(old(host.world), net), host.world, DeleteNetwork(net));
  }

  // ---------- fifos and log files ----------

  datatype FileError = FifoError | LogFileError

  predicate Creatable(w: World, p: Path) {
    p !in w.fs && p != [] && Parent(p) in w.fs && w.fs[Parent(p)] == Dir
  }

  /** A fifo must be new; a log file may exist. */
  predicate FileGoes(w: World, fifo: Option<Path>, path: Option<Path>, fails: bool) {
    if fifo.Some? then !fails && Creatable(w, fifo.value)
    else path.Some? ==> !fails && (Creatable(w, path.value) || (path.value in w.fs && w.fs[path.value] == File))
  }

  function FileMade(w: World, fifo: Option<Path>, path: Option<Path>): World {
    if fifo.Some? then w.(fs := w.fs[fifo.value := File])
    else if path.Some? && path.value !in w.fs then w.(fs := w.fs[path.value := File])
    else w
  }

  /** The path written to when there is no fifo. */
  function PlainLog(fifo: Option<Path>, path: Option<Path>): Option<Path> {
    if fifo.Some? then None else path
  }

  /** w with a plain log file, new or not. */
  function WithLog(w: World, log: Option<Path>): World {
    if log.Some? && log.value !in w.fs then w.(fs := w.fs[log.value := File]) else w
  }

  /** A fifo, nothing, or a log file that is already there. */
  predicate FileUndone(w: World, fifo: Option<Path>, path: Option<Path>) {
    fifo.Some? || path.None? || path.value in w.fs
  }

  /** createFifoOrFile: a fifo is registered for removal, a plain log file is not, so what
      was done is taken back exactly when no new log file was made. */
  method CreateFifoOrFile(host: Host, fifo: Option<Path>, path: Option<Path>, fails: bool)
    returns (err: Option<FileError>, cleanups: seq<Cleanup>)
    requires WellFormed(host.world)
    modifies host
    ensures WellFormed(host.world)
    ensures err.None? <==> FileGoes(old(host.world), fifo, path, fails)
    ensures host.world == if err.None? then FileMade(old(host.world), fifo, path) else old(host.world)
    ensures cleanups == if err.None? && fifo.Some? then [RemoveIfPresent(fifo.value)] else []
    ensures Unwinds(old(host.world), host.world, cleanups) <==> err.Some? || FileUndone(old(host.world), fifo, path)
    ensures err.None? ==> Unwinds(WithLog(old(host.world), PlainLog(fifo, path)), host.world, cleanups)
  {
    cleanups := [];
    err := None;
    if fifo.Some? {
      if fails || fifo.value in host.world.fs || Parent(fifo.value) !in host.world.fs
         || host.world.fs[Parent(fifo.value)] == File {
        return Some(FifoError), cleanups;
      }
      FileWellFormed(host.world, fifo.value);
      FileUnwinds(host.world, fifo.value, RemoveIfPresent(fifo.value));
      host.world := host.world.(fs := host.world.fs[fifo.value := File]);
      cleanups := [RemoveIfPresent(fifo.value)];
    } else if path.Some? {
      if path.value in host.world.fs {
        if fails || host.world.fs[path.value] == Dir {
          return Some(LogFileError), cleanups;
        }
      } else {
        if fails || Parent(path.value) !in host.world.fs || host.world.fs[Parent(path.value)] == File {
          return Some(LogFileError), cleanups;
        }
        FileWellFormed(host.world, path.value);
        host.world := host.world.(fs := host.world.fs[path.value := File]);
      }
    }
  }
}
