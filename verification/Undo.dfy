/** What set-up leaves on the host, and the cleanups that take it away again. */
module Undo {
  /** A cleaned absolute path as its segments; [] is the root directory. */
  type Path = seq<string>

  datatype Kind = Dir | File

  /** A CNI network attached for a container. */
  datatype Attachment = Attachment(network: string, containerID: string)

  /** Partial: an ADD failed and left devices or address allocations behind. */
  datatype NetState = Partial | Complete

  /** vmm: the process of the machine at hand is running. */
  datatype World = World(fs: map<Path, Kind>, mounts: set<Path>, nets: map<Attachment, NetState>, vmm: bool)

  /** The closures pushed on cleanupFuncs. */
  datatype Cleanup =
    | Remove(path: Path)               // os.Remove, an error when it fails
    | RemoveIfPresent(path: Path)      // os.Remove, fine when the path is gone
    | Unmount(path: Path)
    | DeleteNetwork(net: Attachment)

  function Parent(p: Path): Path
    requires p != []
  {
    p[..|p| - 1]
  }

  /** Every entry sits in a directory; only files carry mounts. */
  ghost predicate WellFormed(w: World) {
    && [] in w.fs && w.fs[[]] == Dir
    && (forall p :: p in w.fs && p != [] ==> Parent(p) in w.fs && w.fs[Parent(p)] == Dir)
    && (forall p :: p in w.mounts ==> p in w.fs && w.fs[p] == File)
  }

  predicate Childless(w: World, p: Path) {
    forall q :: q in w.fs && q != [] ==> Parent(q) != p
  }

  /** os.Remove: a file that is not a mount point, or an empty directory. */
  predicate CanRemove(w: World, p: Path) {
    p in w.fs && p != [] && p !in w.mounts && (w.fs[p] == Dir ==> Childless(w, p))
  }

  /** The precondition a cleanup needs to succeed. */
  predicate Ready(w: World, c: Cleanup) {
    match c
    case Remove(p) => CanRemove(w, p)
    case RemoveIfPresent(p) => p in w.fs ==> CanRemove(w, p)
    case Unmount(p) => p in w.mounts
    case DeleteNetwork(_) => true
  }

  function Without(w: World, p: Path): World { w.(fs := w.fs - {p}) }

  function Detached(w: World, net: Attachment): World { w.(nets := w.nets - {net}) }

  /** A cleanup whose precondition holds takes effect; one whose does not fails and changes nothing. */
  function Exec(w: World, c: Cleanup): World {
    if !Ready(w, c) then w
    else
      match c
      case Remove(p) => Without(w, p)
      case RemoveIfPresent(p) => Without(w, p)
      case Unmount(p) => w.(mounts := w.mounts - {p})
      case DeleteNetwork(net) => Detached(w, net)
  }

  /** All cleanups, last registered first. */
  function UndoAll(w: World, cs: seq<Cleanup>): (after: World)
    ensures after.vmm == w.vmm
    decreases |cs|
  {
    if cs == [] then w
    else UndoAll(Exec(w, cs[|cs| - 1]), cs[..|cs| - 1])
  }

  /** Cleanups, failing ones included, keep the tree a tree and its mounts on files. */
  lemma {:induction false} UndoKeepsWellFormed(w: World, cs: seq<Cleanup>)
    requires WellFormed(w)
    ensures WellFormed(UndoAll(w, cs))
    decreases |cs|
  {
    if cs != [] {
      UndoKeepsWellFormed(Exec(w, cs[|cs| - 1]), cs[..|cs| - 1]);
    }
  }

  /** A file no cleanup names stays. */
  lemma {:induction false} UndoKeepsFile(w: World, cs: seq<Cleanup>, p: Path)
    requires p in w.fs && forall i :: 0 <= i < |cs| ==> cs[i].RemoveIfPresent? && cs[i].path != p
    ensures p in UndoAll(w, cs).fs
    decreases |cs|
  {
    if cs != [] {
      UndoKeepsFile(Exec(w, cs[|cs| - 1]), cs[..|cs| - 1], p);
    }
  }

  /** Each cleanup finds its precondition true at its turn. */
  ghost predicate AllReady(w: World, cs: seq<Cleanup>)
    decreases |cs|
  {
    cs == [] || (Ready(w, cs[|cs| - 1]) && AllReady(Exec(w, cs[|cs| - 1]), cs[..|cs| - 1]))
  }

  /** Undoing `cs` from `now` succeeds throughout and ends in `base`. */
  ghost predicate Unwinds(base: World, now: World, cs: seq<Cleanup>) {
    AllReady(now, cs) && UndoAll(now, cs) == base
  }

  /** Set-up stages compose: the later stage is undone first, back to where the earlier one stopped. */
  lemma {:induction false} UnwindsCompose(a: World, b: World, c: World, first: seq<Cleanup>, second: seq<Cleanup>)
    requires Unwinds(a, b, first) && Unwinds(b, c, second)
    ensures Unwinds(a, c, first + second)
    decreases |second|
  {
    if second == [] {
      assert first + second == first;
    } else {
      var n := |second| - 1;
      var all := first + second;
      assert all[|all| - 1] == second[n] && all[..|all| - 1] == first + second[..n];
      UnwindsCompose(a, b, Exec(c, second[n]), first, second[..n]);
    }
  }

  predicate TouchesNets(c: Cleanup) { c.DeleteNetwork? }

  /** Cleanups of files and mounts do not notice a CNI network going away. */
  lemma {:induction false} UnwindsDetached(base: World, now: World, cs: seq<Cleanup>, net: Attachment)
    requires Unwinds(base, now, cs)
    requires forall i :: 0 <= i < |cs| ==> !TouchesNets(cs[i])
    ensures Unwinds(Detached(base, net), Detached(now, net), cs)
    decreases |cs|
  {
    if cs != [] {
      var c := cs[|cs| - 1];
      assert !TouchesNets(c);
      assert Ready(Detached(now, net), c) && Exec(Detached(now, net), c) == Detached(Exec(now, c), net);
      UnwindsDetached(base, Exec(now, c), cs[..|cs| - 1], net);
    }
  }

  /** Cleanups neither notice nor touch the process. */
  lemma {:induction false} UnwindsBeside(base: World, now: World, cs: seq<Cleanup>, vmm: bool)
    requires Unwinds(base, now, cs)
    ensures Unwinds(base.(vmm := vmm), now.(vmm := vmm), cs)
    decreases |cs|
  {
    if cs != [] {
      var c := cs[|cs| - 1];
      assert Ready(now.(vmm := vmm), c) && Exec(now.(vmm := vmm), c) == Exec(now, c).(vmm := vmm);
      UnwindsBeside(base, Exec(now, c), cs[..|cs| - 1], vmm);
    }
  }

  /** c does not remove p. */
  predicate Spares(c: Cleanup, p: Path) {
    match c
    case Remove(q) => q != p
    case RemoveIfPresent(q) => q != p
    case _ => true
  }

  /** Nor do they a file they do not name, in a directory they do not name. */
  lemma {:induction false} UnwindsAround(base: World, now: World, cs: seq<Cleanup>, p: Path)
    requires Unwinds(base, now, cs) && p != [] && p !in now.fs
    requires forall i :: 0 <= i < |cs| ==> Spares(cs[i], p) && Spares(cs[i], Parent(p))
    ensures p !in base.fs
    ensures Unwinds(base.(fs := base.fs[p := File]), now.(fs := now.fs[p := File]), cs)
    decreases |cs|
  {
    if cs != [] {
      var c := cs[|cs| - 1];
      var more := now.(fs := now.fs[p := File]);
      assert Spares(c, p) && Spares(c, Parent(p));
      assert Ready(more, c);
      assert Exec(more, c) == Exec(now, c).(fs := Exec(now, c).fs[p := File]);
      UnwindsAround(base, Exec(now, c), cs[..|cs| - 1], p);
    }
  }

  /** Cleanups remove, and add nothing. */
  lemma {:induction false} UndoShrinks(w: World, cs: seq<Cleanup>)
    ensures forall p :: p in UndoAll(w, cs).fs ==> p in w.fs
    decreases |cs|
  {
    if cs != [] {
      UndoShrinks(Exec(w, cs[|cs| - 1]), cs[..|cs| - 1]);
    }
  }

  /** The cleanups remove no more than entries that were not in w, none of them beside top. */
  predicate NamesWithin(w: World, top: Path, cs: seq<Cleanup>) {
    forall i :: 0 <= i < |cs| ==>
      match cs[i]
      case Remove(p) => p !in w.fs && p <= top
      case RemoveIfPresent(p) => p !in w.fs && p <= top
      case _ => true
  }

  lemma {:induction false} UnwindsOne(base: World, now: World, c: Cleanup)
    requires Ready(now, c) && Exec(now, c) == base
    ensures Unwinds(base, now, [c])
  {
    assert [c][..0] == [];
  }

  /** The cleanups that fail, in the order they are called. */
  function Failures(w: World, cs: seq<Cleanup>): seq<Cleanup>
    decreases |cs|
  {
    if cs == [] then []
    else
      var c := cs[|cs| - 1];
      (if Ready(w, c) then [] else [c]) + Failures(Exec(w, c), cs[..|cs| - 1])
  }

  lemma {:induction false} NoFailuresIff(w: World, cs: seq<Cleanup>)
    ensures Failures(w, cs) == [] <==> AllReady(w, cs)
    decreases |cs|
  {
    if cs != [] {
      NoFailuresIff(Exec(w, cs[|cs| - 1]), cs[..|cs| - 1]);
    }
  }

  /** The cleanup registered first is the last to run. */
  lemma {:induction false} FirstRunsLast(w: World, cs: seq<Cleanup>)
    requires cs != []
    ensures UndoAll(w, cs) == Exec(UndoAll(w, cs[1..]), cs[0])
    decreases |cs|
  {
    var n := |cs| - 1;
    if n == 0 {
      assert cs[1..] == [] && cs[..0] == [];
    } else {
      FirstRunsLast(Exec(w, cs[n]), cs[..n]);
      assert cs[..n][1..] == cs[1..][..n - 1] && cs[1..][n - 1] == cs[n];
    }
  }

  /** Where cleanup i finds its precondition false: those registered after it have run. */
  predicate FailsAtTurn(w: World, cs: seq<Cleanup>, i: nat) {
    i < |cs| && !Ready(UndoAll(w, cs[i + 1..]), cs[i])
  }

  /** The failures are the cleanups at those positions, the last position first. */
  lemma {:induction false} FailuresListed(w: World, cs: seq<Cleanup>) returns (at: seq<nat>)
    ensures forall i :: i in at <==> FailsAtTurn(w, cs, i)
    ensures forall j, k :: 0 <= j < k < |at| ==> at[j] > at[k]
    ensures |Failures(w, cs)| == |at|
    ensures forall k :: 0 <= k < |at| ==> at[k] < |cs| && Failures(w, cs)[k] == cs[at[k]]
    decreases |cs|
  {
    if cs == [] {
      at := [];
    } else {
      var n := |cs| - 1;
      var w1 := Exec(w, cs[n]);
      var earlier := FailuresListed(w1, cs[..n]);
      forall i: nat | i < n
        ensures FailsAtTurn(w, cs, i) <==> FailsAtTurn(w1, cs[..n], i)
      {
        assert cs[i + 1..][..n - i - 1] == cs[..n][i + 1..] && cs[i + 1..][n - i - 1] == cs[n];
      }
      assert cs[n + 1..] == [];
      at := (if Ready(w, cs[n]) then [] else [n]) + earlier;
    }
  }

  /** One turn of the unwinding, on a prefix of the list. */
  lemma {:induction false} UndoTurn(w: World, cs: seq<Cleanup>, n: nat)
    requires 0 < n <= |cs|
    ensures UndoAll(w, cs[..n]) == UndoAll(Exec(w, cs[n - 1]), cs[..n - 1])
    ensures Failures(w, cs[..n]) == (if Ready(w, cs[n - 1]) then [] else [cs[n - 1]]) + Failures(Exec(w, cs[n - 1]), cs[..n - 1])
  {
    assert cs[..n][..n - 1] == cs[..n - 1];
  }
}
