/** LinkFilesHandler: hard-linking the kernel, the initrd, the drives and the fifos into
    the jail, and rewriting the configuration to the names they have there. */
module LinkFiles {
  import opened Text

  /** A path as its segments; a relative one is taken from the working directory, or from
      the jail's root once the process is inside. */
  datatype Path = Path(absolute: bool, segs: seq<string>)

  type Inode = nat

  /** Directory entries of the host: each absolute path names an inode. */
  type Files = map<Path, Inode>

  /** filepath.Base of a cleaned path. */
  function Base(p: Path): string {
    if p.segs == [] then (if p.absolute then "/" else ".") else p.segs[|p.segs| - 1]
  }

  function Join(dir: Path, names: seq<string>): Path { Path(dir.absolute, dir.segs + names) }

  /** The entry a path stands for in a process whose working directory is cwd. */
  function Resolved(cwd: seq<string>, p: Path): Path {
    if p.absolute then p else Path(true, cwd + if p.segs == [] then ["."] else p.segs)
  }

  lemma {:induction false} BaseResolved(cwd: seq<string>, p: Path)
    ensures Base(Resolved(cwd, p)) == Base(p)
  {
  }

  // ---------- where the jail is ----------

  datatype JailConfig = JailConfig(chrootBaseDir: Option<Path>, execFile: Path, id: string)

  const DEFAULT_JAILER_PATH := Path(true, ["srv", "jailer"])
  const ROOTFS := "root"

  function Below(c: JailConfig, dir: Path): Path { Join(dir, [Base(c.execFile), c.id, ROOTFS]) }

  /** The workspace jail() computes for the socket path: the jail's own root. */
  function Workspace(c: JailConfig, cwd: seq<string>): Path {
    Resolved(cwd, Below(c, match c.chrootBaseDir case Some(dir) => dir case None => DEFAULT_JAILER_PATH))
  }

  /** The rootfs LinkFilesHandler links into; joining an empty base directory gives a relative path. */
  function Rootfs(c: JailConfig, cwd: seq<string>): Path {
    Resolved(cwd, Below(c, match c.chrootBaseDir case Some(dir) => dir case None => Path(false, [])))
  }

  /** A base directory is configured, or the default one happens to be the working directory. */
  predicate BaseFound(c: JailConfig, cwd: seq<string>) {
    c.chrootBaseDir.Some? || cwd == DEFAULT_JAILER_PATH.segs
  }

  /** The two agree exactly then; otherwise no name stands in both. */
  lemma {:induction false} RootfsIffBaseFound(c: JailConfig, cwd: seq<string>, a: string, b: string)
    ensures Rootfs(c, cwd) == Workspace(c, cwd) <==> BaseFound(c, cwd)
    ensures Join(Rootfs(c, cwd), [a]) == Join(Workspace(c, cwd), [b]) ==> BaseFound(c, cwd)
  {
    if c.chrootBaseDir.None? {
      var below := [Base(c.execFile), c.id, ROOTFS];
      var d := DEFAULT_JAILER_PATH.segs;
      assert Rootfs(c, cwd) == Path(true, cwd + below) && Workspace(c, cwd) == Path(true, d + below);
      if Join(Rootfs(c, cwd), [a]) == Join(Workspace(c, cwd), [b]) {
        assert Join(Rootfs(c, cwd), [a]).segs == cwd + (below + [a]);
        assert Join(Workspace(c, cwd), [b]).segs == d + (below + [b]);
        SamePrefix(cwd, below + [a], d, below + [b]);
      }
      if Rootfs(c, cwd) == Workspace(c, cwd) {
        SamePrefix(cwd, below, d, below);
      }
    }
  }

  /** The jail's root is three levels below the base directory: the file name of the
      executable, the id, "root". */
  lemma {:induction false} JailIsBelow(c: JailConfig, cwd: seq<string>, dir: seq<string>, exec: string)
    requires c.execFile.segs == dir + [exec]
    ensures var base := match c.chrootBaseDir
                        case Some(d) => if d.absolute then d.segs else cwd + d.segs
                        case None => ["srv", "jailer"];
            Workspace(c, cwd) == Path(true, base + [exec, c.id, "root"])
    ensures c.chrootBaseDir.None? ==> Rootfs(c, cwd) == Path(true, cwd + [exec, c.id, "root"])
  {
    assert Base(c.execFile) == exec;
    if c.chrootBaseDir.Some? && !c.chrootBaseDir.value.absolute {
      var d := c.chrootBaseDir.value;
      assert Workspace(c, cwd).segs == cwd + (d.segs + [exec, c.id, ROOTFS]);
    }
  }

  /** So jails with different ids have different roots, and no entry of one stands in the
      other's, whatever their base directories and executables. */
  lemma {:induction false} JailsApart(c: JailConfig, d: JailConfig, cwd: seq<string>, a: string, b: string)
    requires c.id != d.id
    ensures Workspace(c, cwd) != Workspace(d, cwd)
    ensures Join(Workspace(c, cwd), [a]) != Join(Workspace(d, cwd), [b])
    ensures Join(Rootfs(c, cwd), [a]) != Join(Workspace(d, cwd), [b])
  {
    IdBeforeLast(c, cwd, a);
    IdBeforeLast(d, cwd, b);
  }

  lemma {:induction false} IdBeforeLast(c: JailConfig, cwd: seq<string>, a: string)
    ensures var root := Workspace(c, cwd).segs; |root| >= 3 && root[|root| - 2] == c.id
    ensures var entry := Join(Workspace(c, cwd), [a]).segs; |entry| >= 4 && entry[|entry| - 3] == c.id
    ensures var entry := Join(Rootfs(c, cwd), [a]).segs; |entry| >= 4 && entry[|entry| - 3] == c.id
  {
  }

  lemma {:induction false} SamePrefix(a: seq<string>, x: seq<string>, b: seq<string>, y: seq<string>)
    requires a + x == b + y && |x| == |y|
    ensures a == b
  {
    assert |a| == |b|;
    assert (a + x)[..|a|] == a && (b + y)[..|b|] == b;
  }

  // ---------- linking ----------

  class Host {
    const cwd: seq<string>
    var files: Files

    constructor (cwd: seq<string>, files: Files)
      ensures this.cwd == cwd && this.files == files
    {
      this.cwd, this.files := cwd, files;
    }

    /** os.Link: the old name must exist, the new one must not; `fails` is any other reason. */
    method Link(from: Path, name: Path, fails: bool) returns (ok: bool)
      modifies this
      ensures ok <==> !fails && Resolved(cwd, from) in old(files) && Resolved(cwd, name) !in old(files)
      ensures files == if ok then old(files)[Resolved(cwd, name) := old(files)[Resolved(cwd, from)]] else old(files)
    {
      ok := !fails && Resolved(cwd, from) in files && Resolved(cwd, name) !in files;
      if ok {
        files := files[Resolved(cwd, name) := files[Resolved(cwd, from)]];
      }
    }
  }

  class Config {
    var kernelImagePath: Path
    var initrdPath: Option<Path>
    const drives: array<Path>
    var logFifo: Option<Path>
    var metricsFifo: Option<Path>

    constructor (kernel: Path, initrd: Option<Path>, drives: array<Path>, log: Option<Path>, metrics: Option<Path>)
      ensures kernelImagePath == kernel && initrdPath == initrd && this.drives == drives
      ensures logFifo == log && metricsFifo == metrics
    {
      kernelImagePath, initrdPath, this.drives := kernel, initrd, drives;
      logFifo, metricsFifo := log, metrics;
    }
  }

  /** A name inside the jail. */
  function Inside(name: string): Path { Path(false, [name]) }

  function Renamed(p: Option<Path>): Option<Path> {
    if p.None? then None else Some(Inside(Base(p.value)))
  }

  function AsSeq<T>(o: Option<T>): seq<T> { if o.Some? then [o.value] else [] }

  /** The configured paths, in the order the handler treats them. */
  function Paths(kernel: Path, initrd: Option<Path>, drives: seq<Path>, log: Option<Path>, metrics: Option<Path>): seq<Path> {
    [kernel] + (AsSeq(initrd) + drives + AsSeq(log) + AsSeq(metrics))
  }

  // ---------- the plan ----------

  /** One link to make: a name in the jail for an entry of the host. */
  datatype LinkRecord = LinkRecord(name: string, host: Path)

  function Named(cwd: seq<string>, p: Path): LinkRecord { LinkRecord(Base(p), Resolved(cwd, p)) }

  /** Everything the handler links: the kernel under its given name, all else under its base name. */
  function Plan(kernelName: string, cwd: seq<string>, paths: seq<Path>): (plan: seq<LinkRecord>)
    ensures |plan| == |paths|
    ensures forall i :: 0 <= i < |paths| ==>
              plan[i] == if i == 0 then LinkRecord(kernelName, Resolved(cwd, paths[i])) else Named(cwd, paths[i])
  {
    seq(|paths|, i requires 0 <= i < |paths| =>
      if i == 0 then LinkRecord(kernelName, Resolved(cwd, paths[i])) else Named(cwd, paths[i]))
  }

  /** Whether link k can work, judged from the files at the start alone. */
  predicate Possible(before: Files, rootfs: Path, plan: seq<LinkRecord>, k: nat)
    requires k < |plan|
  {
    && plan[k].host in before
    && Join(rootfs, [plan[k].name]) !in before
    && forall i :: 0 <= i < k ==> plan[i].name != plan[k].name
  }

  /** The first k links go through. */
  predicate Goes(before: Files, rootfs: Path, plan: seq<LinkRecord>, fails: nat -> bool, k: nat)
    requires k <= |plan|
  {
    k == 0 || (Goes(before, rootfs, plan, fails, k - 1) && Possible(before, rootfs, plan, k - 1) && !fails(k - 1))
  }

  /** The files once the first k links are made. */
  function After(before: Files, rootfs: Path, plan: seq<LinkRecord>, k: nat): Files
    requires k <= |plan|
  {
    if k == 0 then before
    else
      var prev, r := After(before, rootfs, plan, k - 1), plan[k - 1];
      if r.host in before then prev[Join(rootfs, [r.name]) := before[r.host]] else prev
  }

  lemma {:induction false} GoesPrefix(before: Files, rootfs: Path, plan: seq<LinkRecord>, fails: nat -> bool, j: nat,
                                      k: nat)
    requires j <= k <= |plan| && Goes(before, rootfs, plan, fails, k)
    ensures Goes(before, rootfs, plan, fails, j)
  {
    if j < k {
      GoesPrefix(before, rootfs, plan, fails, j, k - 1);
    }
  }

  /** Said of the plan as a whole: it goes through, luck aside, exactly when every source
      existed at the start and the names are new in the jail and pairwise distinct. */
  lemma {:induction false} GoesIff(before: Files, rootfs: Path, plan: seq<LinkRecord>, fails: nat -> bool, k: nat)
    requires k <= |plan|
    ensures Goes(before, rootfs, plan, fails, k) <==>
            && (forall i :: 0 <= i < k ==> plan[i].host in before && Join(rootfs, [plan[i].name]) !in before)
            && (forall i, j :: 0 <= i < j < k ==> plan[i].name != plan[j].name)
            && (forall i: nat :: i < k ==> !fails(i))
  {
    if k > 0 {
      GoesIff(before, rootfs, plan, fails, k - 1);
    }
  }

  lemma {:induction false} SameName(rootfs: Path, a: string, b: string)
    requires Join(rootfs, [a]) == Join(rootfs, [b])
    ensures a == b
  {
    assert Join(rootfs, [a]).segs[|rootfs.segs|] == a;
    assert Join(rootfs, [b]).segs[|rootfs.segs|] == b;
  }

  /** Links only add entries, and what they add are the planned names. */
  lemma {:induction false} AfterAdds(before: Files, rootfs: Path, plan: seq<LinkRecord>, fails: nat -> bool, k: nat,
                                     p: Path)
    requires k <= |plan| && Goes(before, rootfs, plan, fails, k)
    ensures p in before ==> p in After(before, rootfs, plan, k) && After(before, rootfs, plan, k)[p] == before[p]
    ensures p in After(before, rootfs, plan, k) && p !in before ==>
              exists i :: 0 <= i < k && p == Join(rootfs, [plan[i].name])
  {
    if k > 0 {
      AfterAdds(before, rootfs, plan, fails, k - 1, p);
    }
  }

  /** Each planned name carries its own source's inode to the end. */
  lemma {:induction false} AfterHas(before: Files, rootfs: Path, plan: seq<LinkRecord>, fails: nat -> bool, k: nat,
                                    i: nat)
    requires i < k <= |plan| && Goes(before, rootfs, plan, fails, k)
    ensures LinkedTo(After(before, rootfs, plan, k), rootfs, Inside(plan[i].name), before, plan[i].host)
  {
    if i < k - 1 {
      AfterHas(before, rootfs, plan, fails, k - 1, i);
      if Join(rootfs, [plan[i].name]) == Join(rootfs, [plan[k - 1].name]) {
        SameName(rootfs, plan[i].name, plan[k - 1].name);
        assert false;
      }
    }
  }

  /** A name linked earlier in the run is never the source of a later link, since that
      link would have the same name and be refused: so looking at the files now and at the
      files as they were comes to the same. */
  lemma {:induction false} SourceIsOriginal(before: Files, rootfs: Path, plan: seq<LinkRecord>, fails: nat -> bool,
                                            k: nat)
    requires k < |plan| && Goes(before, rootfs, plan, fails, k)
    requires k > 0 ==> plan[k].name == Base(plan[k].host)
    ensures var now := After(before, rootfs, plan, k);
            && (plan[k].host in now && Join(rootfs, [plan[k].name]) !in now <==> Possible(before, rootfs, plan, k))
            && (Possible(before, rootfs, plan, k) ==> now[plan[k].host] == before[plan[k].host])
  {
    var now, name := After(before, rootfs, plan, k), Join(rootfs, [plan[k].name]);
    AfterAdds(before, rootfs, plan, fails, k, plan[k].host);
    AfterAdds(before, rootfs, plan, fails, k, name);
    if plan[k].host in now && name !in now {
      forall i | 0 <= i < k
        ensures plan[i].name != plan[k].name
      {
        AfterHas(before, rootfs, plan, fails, k, i);
      }
    } else if Possible(before, rootfs, plan, k) {
      var i :| 0 <= i < k && name == Join(rootfs, [plan[i].name]);
      SameName(rootfs, plan[k].name, plan[i].name);
      assert false;
    }
  }

  // ---------- the handler ----------

  datatype LinkError = MissingJailerConfig | LinkFailed(index: nat) | ChownFailed(index: nat)

  /** How many links were made, by the outcome. */
  function Made(err: Option<LinkError>, all: nat): nat {
    match err
    case None => all
    case Some(MissingJailerConfig) => 0
    case Some(LinkFailed(i)) => i
    case Some(ChownFailed(i)) => i + 1
  }

  /** The run so far: the first k planned links are made. */
  ghost predicate Doing(host: Host, before: Files, rootfs: Path, plan: seq<LinkRecord>, fails: nat -> bool, k: nat)
    reads host
  {
    k <= |plan| && Goes(before, rootfs, plan, fails, k) && host.files == After(before, rootfs, plan, k)
  }

  method LinkOne(host: Host, rootfs: Path, src: Path, name: string, fails: nat -> bool, k: nat,
                 ghost before: Files, ghost plan: seq<LinkRecord>)
    returns (err: Option<LinkError>)
    requires Doing(host, before, rootfs, plan, fails, k)
    requires rootfs.absolute
    requires k < |plan| && plan[k] == LinkRecord(name, Resolved(host.cwd, src)) && (k > 0 ==> name == Base(src))
    modifies host
    ensures err == (if Goes(before, rootfs, plan, fails, k + 1) then None else Some(LinkFailed(k)))
    ensures err.None? ==> Doing(host, before, rootfs, plan, fails, k + 1)
    ensures err.Some? ==> host.files == old(host.files) && !Goes(before, rootfs, plan, fails, |plan|)
  {
    BaseResolved(host.cwd, src);
    SourceIsOriginal(before, rootfs, plan, fails, k);
    var ok := host.Link(src, Join(rootfs, [name]), fails(k));
    if ok {
      return None;
    }
    if Goes(before, rootfs, plan, fails, |plan|) {
      GoesPrefix(before, rootfs, plan, fails, k + 1, |plan|);
    }
    return Some(LinkFailed(k));
  }

  /** The drives, linked in order and renamed in place. */
  method LinkDrives(host: Host, c: Config, rootfs: Path, fails: nat -> bool, at: nat,
                    ghost before: Files, ghost plan: seq<LinkRecord>)
    returns (err: Option<LinkError>)
    requires 0 < at && at + c.drives.Length <= |plan|
    requires forall i :: 0 <= i < c.drives.Length ==> plan[at + i] == Named(host.cwd, c.drives[i])
    requires rootfs.absolute && Doing(host, before, rootfs, plan, fails, at)
    modifies host, c.drives
    ensures err.None? ==> Doing(host, before, rootfs, plan, fails, at + c.drives.Length)
    ensures err.None? ==> forall i :: 0 <= i < c.drives.Length ==> c.drives[i] == Inside(Base(old(c.drives[i])))
    ensures err.Some? ==> err.value.LinkFailed? && !Goes(before, rootfs, plan, fails, |plan|)
    ensures err.Some? ==> err.value.index < |plan| && host.files == After(before, rootfs, plan, err.value.index)
  {
    for k := 0 to c.drives.Length
      invariant forall i :: k <= i < c.drives.Length ==> c.drives[i] == old(c.drives[i])
      invariant forall i :: 0 <= i < k ==> c.drives[i] == Inside(Base(old(c.drives[i])))
      invariant Doing(host, before, rootfs, plan, fails, at + k)
    {
      var hostPath := c.drives[k];
      assert plan[at + k] == Named(host.cwd, hostPath);
      err := LinkOne(host, rootfs, hostPath, Base(hostPath), fails, at + k, before, plan);
      if err.Some? {
        return;
      }
      c.drives[k] := Inside(Base(hostPath));
    }
    err := None;
  }

  /** One of the two fifos, linked and handed to the jailed user if there is one. */
  method LinkFifo(host: Host, fifo: Option<Path>, rootfs: Path, fails: nat -> bool, chownFails: bool, at: nat,
                  ghost before: Files, ghost plan: seq<LinkRecord>)
    returns (err: Option<LinkError>, fifo': Option<Path>)
    requires 0 < at && (fifo.Some? ==> at < |plan| && plan[at] == Named(host.cwd, fifo.value))
    requires rootfs.absolute && Doing(host, before, rootfs, plan, fails, at)
    modifies host
    ensures err.None? ==>
              && Doing(host, before, rootfs, plan, fails, at + |AsSeq(fifo)|)
              && fifo' == Renamed(fifo) && (fifo.Some? ==> !chownFails)
    ensures err.Some? ==>
              && Made(err, |plan|) <= |plan| && host.files == After(before, rootfs, plan, Made(err, |plan|))
              && if err.value.ChownFailed? then fifo.Some? && chownFails
                 else err.value.LinkFailed? && !Goes(before, rootfs, plan, fails, |plan|)
  {
    fifo' := fifo;
    if fifo.None? {
      return None, None;
    }
    err := LinkOne(host, rootfs, fifo.value, Base(fifo.value), fails, at, before, plan);
    if err.Some? {
      return;
    }
    if chownFails {
      return Some(ChownFailed(at)), fifo';
    }
    return None, Some(Inside(Base(fifo.value)));
  }

  /** The loop over the log fifo and the metrics fifo. */
  method LinkFifos(host: Host, c: Config, rootfs: Path, fails: nat -> bool, logChownFails: bool, metricsChownFails: bool,
                   at: nat, ghost before: Files, ghost plan: seq<LinkRecord>)
    returns (err: Option<LinkError>)
    requires 0 < at && |plan| == at + |AsSeq(c.logFifo)| + |AsSeq(c.metricsFifo)|
    requires c.logFifo.Some? ==> plan[at] == Named(host.cwd, c.logFifo.value)
    requires c.metricsFifo.Some? ==>
               plan[at + |AsSeq(c.logFifo)|] == Named(host.cwd, c.metricsFifo.value)
    requires rootfs.absolute && Doing(host, before, rootfs, plan, fails, at)
    modifies host, c`logFifo, c`metricsFifo
    ensures err.None? <==>
              && Goes(before, rootfs, plan, fails, |plan|)
              && (old(c.logFifo).Some? ==> !logChownFails) && (old(c.metricsFifo).Some? ==> !metricsChownFails)
    ensures Made(err, |plan|) <= |plan| && host.files == After(before, rootfs, plan, Made(err, |plan|))
    ensures err.None? ==> c.logFifo == Renamed(old(c.logFifo)) && c.metricsFifo == Renamed(old(c.metricsFifo))
  {
    var log, metrics;
    err, log := LinkFifo(host, c.logFifo, rootfs, fails, logChownFails, at, before, plan);
    if err.Some? {
      return;
    }
    var next := at + |AsSeq(c.logFifo)|;
    c.logFifo := log;
    err, metrics := LinkFifo(host, c.metricsFifo, rootfs, fails, metricsChownFails, next, before, plan);
    if err.Some? {
      return;
    }
    c.metricsFifo := metrics;
  }

  /** The kernel and the initrd. */
  method LinkImages(host: Host, c: Config, rootfs: Path, kernelName: string, fails: nat -> bool,
                    ghost before: Files, ghost plan: seq<LinkRecord>)
    returns (err: Option<LinkError>)
    requires |plan| > |AsSeq(c.initrdPath)| && plan[0] == LinkRecord(kernelName, Resolved(host.cwd, c.kernelImagePath))
    requires c.initrdPath.Some? ==> plan[1] == Named(host.cwd, c.initrdPath.value)
    requires rootfs.absolute && Doing(host, before, rootfs, plan, fails, 0)
    modifies host
    ensures err.None? ==> Doing(host, before, rootfs, plan, fails, 1 + |AsSeq(c.initrdPath)|)
    ensures err.Some? ==> err.value.LinkFailed? && !Goes(before, rootfs, plan, fails, |plan|)
    ensures err.Some? ==> err.value.index < |plan| && host.files == After(before, rootfs, plan, err.value.index)
  {
    err := LinkOne(host, rootfs, c.kernelImagePath, kernelName, fails, 0, before, plan);
    if err.None? && c.initrdPath.Some? {
      err := LinkOne(host, rootfs, c.initrdPath.value, Base(c.initrdPath.value), fails, 1, before, plan);
    }
  }

  /** LinkFilesHandler. It succeeds exactly when the whole plan goes through and the two
      fifos can be handed over; either way the files are those of the links made so far. */
  method LinkFilesHandler(host: Host, c: Config, jail: Option<JailConfig>, kernelName: string,
                          fails: nat -> bool, logChownFails: bool, metricsChownFails: bool)
    returns (err: Option<LinkError>)
    modifies host, c, c.drives
    ensures jail.None? ==> err == Some(MissingJailerConfig) && unchanged(host) && unchanged(c) && unchanged(c.drives)
    ensures jail.Some? ==>
              var plan := Plan(kernelName, host.cwd, old(Paths(c.kernelImagePath, c.initrdPath, c.drives[..], c.logFifo, c.metricsFifo)));
              && (err.None? <==>
                    && Goes(old(host.files), Rootfs(jail.value, host.cwd), plan, fails, |plan|)
                    && (old(c.logFifo).Some? ==> !logChownFails) && (old(c.metricsFifo).Some? ==> !metricsChownFails))
              && Made(err, |plan|) <= |plan|
              && host.files == After(old(host.files), Rootfs(jail.value, host.cwd), plan, Made(err, |plan|))
    ensures err.None? ==>
              && c.kernelImagePath == Inside(kernelName)
              && c.initrdPath == Renamed(old(c.initrdPath))
              && (forall i :: 0 <= i < c.drives.Length ==> c.drives[i] == Inside(Base(old(c.drives[i]))))
              && c.logFifo == Renamed(old(c.logFifo)) && c.metricsFifo == Renamed(old(c.metricsFifo))
  {
    if jail.None? {
      return Some(MissingJailerConfig);
    }
    ghost var plan := Plan(kernelName, host.cwd, Paths(c.kernelImagePath, c.initrdPath, c.drives[..], c.logFifo, c.metricsFifo));
    PlanLayout(kernelName, host.cwd, c.kernelImagePath, c.initrdPath, c.drives[..], c.logFifo, c.metricsFifo);
    err := LinkAll(host, c, Rootfs(jail.value, host.cwd), kernelName, fails, logChownFails, metricsChownFails, plan);
  }

  method LinkAll(host: Host, c: Config, rootfs: Path, kernelName: string, fails: nat -> bool,
                 logChownFails: bool, metricsChownFails: bool, ghost plan: seq<LinkRecord>)
    returns (err: Option<LinkError>)
    requires rootfs.absolute
    requires LaidOut(plan, kernelName, host.cwd, c.kernelImagePath, c.initrdPath, c.drives[..], c.logFifo, c.metricsFifo)
    modifies host, c, c.drives
    ensures err.None? <==>
              && Goes(old(host.files), rootfs, plan, fails, |plan|)
              && (old(c.logFifo).Some? ==> !logChownFails) && (old(c.metricsFifo).Some? ==> !metricsChownFails)
    ensures Made(err, |plan|) <= |plan|
    ensures host.files == After(old(host.files), rootfs, plan, Made(err, |plan|))
    ensures err.None? ==>
              && c.kernelImagePath == Inside(kernelName)
              && c.initrdPath == Renamed(old(c.initrdPath))
              && (forall i :: 0 <= i < c.drives.Length ==> c.drives[i] == Inside(Base(old(c.drives[i]))))
              && c.logFifo == Renamed(old(c.logFifo)) && c.metricsFifo == Renamed(old(c.metricsFifo))
  {
    ghost var before := host.files;
    var n := 1 + |AsSeq(c.initrdPath)|;
    err := LinkImages(host, c, rootfs, kernelName, fails, before, plan);
    if err.Some? {
      return;
    }
    err := LinkDrives(host, c, rootfs, fails, n, before, plan);
    if err.Some? {
      return;
    }
    c.kernelImagePath, c.initrdPath := Inside(kernelName), Renamed(c.initrdPath);
    err := LinkFifos(host, c, rootfs, fails, logChownFails, metricsChownFails, n + c.drives.Length, before, plan);
  }

  /** Where each of the paths stands. */
  lemma {:induction false} PathsLayout(kernel: Path, initrd: Option<Path>, drives: seq<Path>, log: Option<Path>,
                                       metrics: Option<Path>)
    ensures var paths := Paths(kernel, initrd, drives, log, metrics);
            var n := 1 + |AsSeq(initrd)|;
            var m := n + |drives| + |AsSeq(log)|;
            && |paths| == m + |AsSeq(metrics)|
            && paths[0] == kernel
            && (initrd.Some? ==> paths[1] == initrd.value)
            && (forall i :: 0 <= i < |drives| ==> paths[n + i] == drives[i])
            && (log.Some? ==> paths[n + |drives|] == log.value)
            && (metrics.Some? ==> paths[m] == metrics.value)
  {
    var i, l, m := AsSeq(initrd), AsSeq(log), AsSeq(metrics);
    forall k | 0 <= k < |drives|
      ensures Paths(kernel, initrd, drives, log, metrics)[1 + |i| + k] == drives[k]
    {
      DriveAt(kernel, i, drives, l, m, k);
    }
    EndsAt(kernel, i, drives, l, m);
  }

  lemma {:induction false} DriveAt(first: Path, i: seq<Path>, d: seq<Path>, l: seq<Path>, m: seq<Path>, k: nat)
    requires k < |d|
    ensures ([first] + (i + d + l + m))[1 + |i| + k] == d[k]
  {
    assert (i + d)[|i| + k] == d[k];
    assert (i + d + l + m)[|i| + k] == (i + d)[|i| + k];
  }

  lemma {:induction false} EndsAt(first: Path, i: seq<Path>, d: seq<Path>, l: seq<Path>, m: seq<Path>)
    ensures var all := [first] + (i + d + l + m);
            && |all| == 1 + |i| + |d| + |l| + |m|
            && (i != [] ==> all[1] == i[0])
            && (l != [] ==> all[1 + |i| + |d|] == l[0])
            && (m != [] ==> all[1 + |i| + |d| + |l|] == m[0])
  {
  }

  /** Where each part of a plan stands. */
  predicate LaidOut(plan: seq<LinkRecord>, kernelName: string, cwd: seq<string>, kernel: Path, initrd: Option<Path>, drives: seq<Path>,
                    log: Option<Path>, metrics: Option<Path>) {
    var n := 1 + |AsSeq(initrd)|;
    var m := n + |drives| + |AsSeq(log)|;
    && |plan| == m + |AsSeq(metrics)|
    && plan[0] == LinkRecord(kernelName, Resolved(cwd, kernel))
    && (initrd.Some? ==> plan[1] == Named(cwd, initrd.value))
    && (forall i :: 0 <= i < |drives| ==> plan[n + i] == Named(cwd, drives[i]))
    && (log.Some? ==> plan[n + |drives|] == Named(cwd, log.value))
    && (metrics.Some? ==> plan[m] == Named(cwd, metrics.value))
  }

  lemma {:induction false} PlanLayout(kernelName: string, cwd: seq<string>, kernel: Path, initrd: Option<Path>, drives: seq<Path>,
                                      log: Option<Path>, metrics: Option<Path>)
    ensures LaidOut(Plan(kernelName, cwd, Paths(kernel, initrd, drives, log, metrics)), kernelName, cwd, kernel, initrd,
                    drives, log, metrics)
  {
    PathsLayout(kernel, initrd, drives, log, metrics);
  }

  // ---------- link safety ----------

  /** p, looked up from the jail's root, is the inode `host` named before. */
  predicate LinkedTo(files: Files, rootfs: Path, p: Path, before: Files, host: Path) {
    && !p.absolute
    && Join(rootfs, p.segs) in files
    && host in before
    && files[Join(rootfs, p.segs)] == before[host]
  }

  /** Place by place, the second list names the first by its base names. */
  predicate BaseNamed(ps: seq<Path>, ps': seq<Path>) {
    |ps'| == |ps| && forall i :: 0 <= i < |ps| ==> ps'[i] == Inside(Base(ps[i]))
  }

  lemma {:induction false} BaseNamedConcat(a: seq<Path>, a': seq<Path>, b: seq<Path>, b': seq<Path>)
    requires BaseNamed(a, a') && BaseNamed(b, b')
    ensures BaseNamed(a + b, a' + b')
  {
  }

  /** The rewritten paths are the planned names, place by place. */
  lemma {:induction false} RenamedPaths(kernelName: string, cwd: seq<string>, kernel: Path, initrd: Option<Path>,
                                        drives: seq<Path>, log: Option<Path>, metrics: Option<Path>,
                                        drives': seq<Path>)
    requires BaseNamed(drives, drives')
    ensures var paths := Paths(kernel, initrd, drives, log, metrics);
            var paths' := Paths(Inside(kernelName), Renamed(initrd), drives', Renamed(log), Renamed(metrics));
            && |paths'| == |paths|
            && forall k :: 0 <= k < |paths| ==> paths'[k] == Inside(Plan(kernelName, cwd, paths)[k].name)
  {
    var i, i', l, l' := AsSeq(initrd), AsSeq(Renamed(initrd)), AsSeq(log), AsSeq(Renamed(log));
    var m, m' := AsSeq(metrics), AsSeq(Renamed(metrics));
    BaseNamedConcat(i, i', drives, drives');
    BaseNamedConcat(i + drives, i' + drives', l, l');
    BaseNamedConcat(i + drives + l, i' + drives' + l', m, m');
    RestNamed(kernelName, cwd, kernel, i + drives + l + m, i' + drives' + l' + m');
  }

  lemma {:induction false} RestNamed(kernelName: string, cwd: seq<string>, kernel: Path, rest: seq<Path>,
                                     rest': seq<Path>)
    requires BaseNamed(rest, rest')
    ensures forall k :: 0 <= k < 1 + |rest| ==>
              ([Inside(kernelName)] + rest')[k] == Inside(Plan(kernelName, cwd, [kernel] + rest)[k].name)
  {
  }

  /** Seen from the jail's own root, a link made is its source's inode exactly when a base
      directory is configured, or the default one is the working directory, or the name
      stood for that inode there all along. Otherwise the links are made elsewhere. */
  lemma {:induction false} JailSafety(before: Files, c: JailConfig, cwd: seq<string>, plan: seq<LinkRecord>,
                                      fails: nat -> bool, k: nat)
    requires Goes(before, Rootfs(c, cwd), plan, fails, |plan|) && k < |plan|
    ensures var name, host := Inside(plan[k].name), plan[k].host;
            LinkedTo(After(before, Rootfs(c, cwd), plan, |plan|), Workspace(c, cwd), name, before, host)
            <==> BaseFound(c, cwd) || LinkedTo(before, Workspace(c, cwd), name, before, host)
  {
    RootfsIffBaseFound(c, cwd, "", "");
    AfterHas(before, Rootfs(c, cwd), plan, fails, |plan|, k);
    if !BaseFound(c, cwd) {
      OutsideUntouched(before, c, cwd, plan, fails, plan[k].name);
    }
  }

  /** Then no entry of the jail's own root directory changes. */
  lemma {:induction false} OutsideUntouched(before: Files, c: JailConfig, cwd: seq<string>, plan: seq<LinkRecord>,
                                            fails: nat -> bool, name: string)
    requires Goes(before, Rootfs(c, cwd), plan, fails, |plan|) && !BaseFound(c, cwd)
    ensures var after, p := After(before, Rootfs(c, cwd), plan, |plan|), Join(Workspace(c, cwd), [name]);
            (p in after <==> p in before) && (p in before ==> after[p] == before[p])
  {
    var after, p := After(before, Rootfs(c, cwd), plan, |plan|), Join(Workspace(c, cwd), [name]);
    AfterAdds(before, Rootfs(c, cwd), plan, fails, |plan|, p);
    if p in after && p !in before {
      var i :| 0 <= i < |plan| && p == Join(Rootfs(c, cwd), [plan[i].name]);
      RootfsIffBaseFound(c, cwd, plan[i].name, name);
      assert false;
    }
  }

  /** In particular a name that is new in the jail leads to its file there exactly when a
      base directory is configured or the default one is the working directory. */
  lemma {:induction false} NewNameInJail(before: Files, c: JailConfig, cwd: seq<string>, plan: seq<LinkRecord>,
                                         fails: nat -> bool, k: nat)
    requires Goes(before, Rootfs(c, cwd), plan, fails, |plan|) && k < |plan|
    requires Join(Workspace(c, cwd), [plan[k].name]) !in before
    ensures LinkedTo(After(before, Rootfs(c, cwd), plan, |plan|), Workspace(c, cwd), Inside(plan[k].name), before, plan[k].host)
            <==> BaseFound(c, cwd)
  {
    JailSafety(before, c, cwd, plan, fails, k);
  }

  /** When the handler succeeds, every rewritten path, looked up in the directory linked
      into, is the inode its original host path named at the start, the rewritten paths are
      pairwise distinct, and every file there was is still there. Looked up from the jail's
      own root, each is that inode exactly when a base directory is configured, or the
      default one is the working directory, or the name was that inode there already. */
  method LinkSafely(host: Host, c: Config, jail: JailConfig, kernelName: string,
                    fails: nat -> bool, logChownFails: bool, metricsChownFails: bool)
    returns (err: Option<LinkError>)
    modifies host, c, c.drives
    ensures err.None? ==>
              var paths := old(Paths(c.kernelImagePath, c.initrdPath, c.drives[..], c.logFifo, c.metricsFifo));
              var paths' := Paths(c.kernelImagePath, c.initrdPath, c.drives[..], c.logFifo, c.metricsFifo);
              && |paths'| == |paths|
              && (forall k :: 0 <= k < |paths| ==>
                    LinkedTo(host.files, Rootfs(jail, host.cwd), paths'[k], old(host.files), Resolved(host.cwd, paths[k])))
              && (forall k :: 0 <= k < |paths| ==>
                    (LinkedTo(host.files, Workspace(jail, host.cwd), paths'[k], old(host.files), Resolved(host.cwd, paths[k]))
                     <==> || BaseFound(jail, host.cwd)
                          || LinkedTo(old(host.files), Workspace(jail, host.cwd), paths'[k], old(host.files),
                                      Resolved(host.cwd, paths[k]))))
              && (forall j, k :: 0 <= j < k < |paths| ==> paths'[j] != paths'[k])
              && (forall p :: p in old(host.files) ==> p in host.files && host.files[p] == old(host.files)[p])
  {
    ghost var before, kernel, initrd, drives := host.files, c.kernelImagePath, c.initrdPath, c.drives[..];
    ghost var log, metrics, cwd := c.logFifo, c.metricsFifo, host.cwd;
    err := LinkFilesHandler(host, c, Some(jail), kernelName, fails, logChownFails, metricsChownFails);
    if err.None? {
      RenamedPaths(kernelName, cwd, kernel, initrd, drives, log, metrics, c.drives[..]);
      ghost var plan := Plan(kernelName, cwd, Paths(kernel, initrd, drives, log, metrics));
      LinkSafety(before, Rootfs(jail, cwd), plan, fails);
      forall k | 0 <= k < |plan|
        ensures LinkedTo(host.files, Workspace(jail, cwd), Inside(plan[k].name), before, plan[k].host)
                <==> BaseFound(jail, cwd) || LinkedTo(before, Workspace(jail, cwd), Inside(plan[k].name), before, plan[k].host)
      {
        JailSafety(before, jail, cwd, plan, fails, k);
      }
    }
  }

  lemma {:induction false} LinkSafety(before: Files, rootfs: Path, plan: seq<LinkRecord>, fails: nat -> bool)
    requires Goes(before, rootfs, plan, fails, |plan|)
    ensures var after := After(before, rootfs, plan, |plan|);
            && (forall k :: 0 <= k < |plan| ==> LinkedTo(after, rootfs, Inside(plan[k].name), before, plan[k].host))
            && (forall j, k :: 0 <= j < k < |plan| ==> Inside(plan[j].name) != Inside(plan[k].name))
            && (forall p :: p in before ==> p in after && after[p] == before[p])
  {
    var after := After(before, rootfs, plan, |plan|);
    forall k | 0 <= k < |plan|
      ensures LinkedTo(after, rootfs, Inside(plan[k].name), before, plan[k].host)
    {
      AfterHas(before, rootfs, plan, fails, |plan|, k);
    }
    forall p | p in before
      ensures p in after && after[p] == before[p]
    {
      AfterAdds(before, rootfs, plan, fails, |plan|, p);
    }
    GoesIff(before, rootfs, plan, fails, |plan|);
    forall j, k | 0 <= j < k < |plan|
      ensures Inside(plan[j].name) != Inside(plan[k].name)
    {
      assert Inside(plan[j].name).segs[0] == plan[j].name;
      assert Inside(plan[k].name).segs[0] == plan[k].name;
    }
  }
}
