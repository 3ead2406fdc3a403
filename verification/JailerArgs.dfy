/** The jailer's command line: JailerCommandBuilder.Args and a positional reader for it. */
module JailerArgs {
  import opened Text

  /** The builder's fields that reach the command line. `cpulist` is what sysfs lists for
      the NUMA node, empty when it cannot be read. */
  datatype Builder = Builder(
    id: string, uid: int, gid: int, execFile: string, node: int, cpulist: string,
    chrootBaseDir: string, netNS: string, daemonize: bool, firecrackerArgs: seq<string>,
    cgroupVersion: string, cgroupArgs: seq<string>, parentCgroup: string)

  /** The cgroup settings in the order the jailer sees them: NUMA first, then the user's. */
  function NumaEntries(b: Builder): seq<string> {
    if b.cpulist == "" then [] else [MEMS + "=" + Itoa(b.node), CPUS + "=" + b.cpulist]
  }

  const MEMS := "cpuset.mems"
  const CPUS := "cpuset.cpus"

  function CgroupEntries(b: Builder): seq<string> { NumaEntries(b) + b.cgroupArgs }

  /** "--cgroup" before each entry. */
  function CgroupFlags(entries: seq<string>): seq<string> {
    if entries == [] then [] else CgroupFlags(entries[..|entries| - 1]) + ["--cgroup", entries[|entries| - 1]]
  }

  /** A flag that is left out when its value is empty. */
  function Optional(flag: string, value: string): seq<string> {
    if value == "" then [] else [flag, value]
  }

  function Tail(b: Builder): seq<string> {
    Optional("--cgroup-version", b.cgroupVersion)
    + (Optional("--parent-cgroup", b.parentCgroup)
       + (Optional("--chroot-base-dir", b.chrootBaseDir)
          + (Optional("--netns", b.netNS)
             + ((if b.daemonize then ["--daemonize"] else [])
                + (if b.firecrackerArgs == [] then [] else ["--"] + b.firecrackerArgs)))))
  }

  function Head(b: Builder): seq<string> {
    ["--id", b.id, "--uid", Itoa(b.uid), "--gid", Itoa(b.gid), "--exec-file", b.execFile]
  }

  function CommandLine(b: Builder): seq<string> {
    Head(b) + (CgroupFlags(CgroupEntries(b)) + Tail(b))
  }

  method Args(b: Builder) returns (args: seq<string>)
    ensures args == CommandLine(b)
  {
    args := [];
    args := args + ["--id", b.id];
    args := args + ["--uid", Itoa(b.uid)];
    args := args + ["--gid", Itoa(b.gid)];
    args := args + ["--exec-file", b.execFile];
    assert args == Head(b);
    args := AppendCgroups(b, args);
    args := AppendOptionals(b, args);
    Associate(Head(b), CgroupFlags(CgroupEntries(b)), Tail(b));
  }

  /** The cgroup part of Args. */
  method AppendCgroups(b: Builder, args0: seq<string>) returns (args: seq<string>)
    ensures args == args0 + CgroupFlags(CgroupEntries(b))
  {
    args := args0;
    if |b.cpulist| > 0 {
      args := args + ["--cgroup", MEMS + "=" + Itoa(b.node)];
      args := args + ["--cgroup", CPUS + "=" + b.cpulist];
    }
    TwoFlags(b);
    for i := 0 to |b.cgroupArgs|
      invariant args == args0 + CgroupFlags(NumaEntries(b) + b.cgroupArgs[..i])
    {
      OneMoreFlag(NumaEntries(b), b.cgroupArgs, i);
      args := args + ["--cgroup", b.cgroupArgs[i]];
    }
    assert NumaEntries(b) + b.cgroupArgs[..|b.cgroupArgs|] == CgroupEntries(b);
  }

  /** The optional part of Args. */
  method AppendOptionals(b: Builder, args0: seq<string>) returns (args: seq<string>)
    ensures args == args0 + Tail(b)
  {
    args := args0;
    if |b.cgroupVersion| > 0 {
      args := args + ["--cgroup-version", b.cgroupVersion];
    }
    assert args == args0 + Optional("--cgroup-version", b.cgroupVersion);
    ghost var a1 := args;
    if |b.parentCgroup| > 0 {
      args := args + ["--parent-cgroup", b.parentCgroup];
    }
    assert args == a1 + Optional("--parent-cgroup", b.parentCgroup);
    ghost var a2 := args;
    if |b.chrootBaseDir| > 0 {
      args := args + ["--chroot-base-dir", b.chrootBaseDir];
    }
    assert args == a2 + Optional("--chroot-base-dir", b.chrootBaseDir);
    ghost var a3 := args;
    if |b.netNS| > 0 {
      args := args + ["--netns", b.netNS];
    }
    assert args == a3 + Optional("--netns", b.netNS);
    ghost var a4 := args;
    if b.daemonize {
      args := args + ["--daemonize"];
    }
    assert args == a4 + if b.daemonize then ["--daemonize"] else [];
    ghost var a5 := args;
    if |b.firecrackerArgs| > 0 {
      args := args + ["--"];
      args := args + b.firecrackerArgs;
    }
    assert args == a5 + if b.firecrackerArgs == [] then [] else ["--"] + b.firecrackerArgs;
    TailInOrder(args0, b);
  }

  lemma {:induction false} TailInOrder(before: seq<string>, b: Builder)
    ensures before + Optional("--cgroup-version", b.cgroupVersion) + Optional("--parent-cgroup", b.parentCgroup)
            + Optional("--chroot-base-dir", b.chrootBaseDir) + Optional("--netns", b.netNS)
            + (if b.daemonize then ["--daemonize"] else [])
            + (if b.firecrackerArgs == [] then [] else ["--"] + b.firecrackerArgs)
            == before + Tail(b)
  {
    var o1, o2 := Optional("--cgroup-version", b.cgroupVersion), Optional("--parent-cgroup", b.parentCgroup);
    var o3, o4 := Optional("--chroot-base-dir", b.chrootBaseDir), Optional("--netns", b.netNS);
    var o5 := if b.daemonize then ["--daemonize"] else [];
    var o6 := if b.firecrackerArgs == [] then [] else ["--"] + b.firecrackerArgs;
    AssociateSix(before, o1, o2, o3, o4, o5, o6);
  }

  lemma {:induction false} Associate(a: seq<string>, b: seq<string>, c: seq<string>)
    ensures a + b + c == a + (b + c)
  {
  }

  lemma {:induction false} AssociateSix(a: seq<string>, o1: seq<string>, o2: seq<string>, o3: seq<string>,
                                        o4: seq<string>, o5: seq<string>, o6: seq<string>)
    ensures a + o1 + o2 + o3 + o4 + o5 + o6 == a + (o1 + (o2 + (o3 + (o4 + (o5 + o6)))))
  {
    Associate(a + o1 + o2 + o3 + o4, o5, o6);
    Associate(a + o1 + o2 + o3, o4, o5 + o6);
    Associate(a + o1 + o2, o3, o4 + (o5 + o6));
    Associate(a + o1, o2, o3 + (o4 + (o5 + o6)));
    Associate(a, o1, o2 + (o3 + (o4 + (o5 + o6))));
  }

  lemma {:induction false} TwoFlags(b: Builder)
    ensures CgroupFlags(NumaEntries(b) + b.cgroupArgs[..0]) ==
            if b.cpulist == "" then []
            else ["--cgroup", MEMS + "=" + Itoa(b.node), "--cgroup", CPUS + "=" + b.cpulist]
  {
    var e := NumaEntries(b);
    assert e + b.cgroupArgs[..0] == e;
    if b.cpulist != "" {
      assert e[..1] == [e[0]] && e[..1][..0] == [];
      assert CgroupFlags(e[..1]) == ["--cgroup", e[0]];
    }
  }

  lemma {:induction false} OneMoreFlag(numa: seq<string>, user: seq<string>, i: nat)
    requires i < |user|
    ensures CgroupFlags(numa + user[..i + 1]) == CgroupFlags(numa + user[..i]) + ["--cgroup", user[i]]
  {
    var all := numa + user[..i + 1];
    assert all[..|all| - 1] == numa + user[..i];
  }

  // ---------- a positional reader ----------

  /** What the command line says. */
  datatype Reading = Reading(
    id: string, uid: int, gid: int, execFile: string, cgroups: seq<string>,
    cgroupVersion: string, parentCgroup: string, chrootBaseDir: string, netNS: string,
    daemonize: bool, firecrackerArgs: seq<string>)

  /** Takes "flag value" off the front if the flag is there. */
  function TakeOptional(args: seq<string>, flag: string): (string, seq<string>) {
    if |args| >= 2 && args[0] == flag then (args[1], args[2..]) else ("", args)
  }

  /** Takes every leading "--cgroup value". */
  function TakeCgroups(args: seq<string>): (seq<string>, seq<string>)
    decreases |args|
  {
    if |args| >= 2 && args[0] == "--cgroup" then
      var (more, rest) := TakeCgroups(args[2..]);
      ([args[1]] + more, rest)
    else ([], args)
  }

  function TakeDaemonize(args: seq<string>): (bool, seq<string>) {
    if |args| >= 1 && args[0] == "--daemonize" then (true, args[1..]) else (false, args)
  }

  /** Reads by position only: what stands where a value belongs is a value, whatever it looks like. */
  function Read(args: seq<string>): Option<Reading> {
    if !(|args| >= 8 && args[0] == "--id" && args[2] == "--uid" && args[4] == "--gid" && args[6] == "--exec-file") then None
    else
      match (Atoi(args[3]), Atoi(args[5]))
      case (Some(uid), Some(gid)) =>
        var (cgroups, r0) := TakeCgroups(args[8..]);
        var (version, r1) := TakeOptional(r0, "--cgroup-version");
        var (parent, r2) := TakeOptional(r1, "--parent-cgroup");
        var (chroot, r3) := TakeOptional(r2, "--chroot-base-dir");
        var (netns, r4) := TakeOptional(r3, "--netns");
        var (daemonize, r5) := TakeDaemonize(r4);
        if r5 == [] then Some(Reading(args[1], uid, gid, args[7], cgroups, version, parent, chroot, netns, daemonize, []))
        else if r5[0] == "--" then
          Some(Reading(args[1], uid, gid, args[7], cgroups, version, parent, chroot, netns, daemonize, r5[1..]))
        else None
      case _ => None
  }

  /** What a builder is to be read as: the two cpuset files stand before the user's cgroups. */
  function Meaning(b: Builder): Reading {
    var numa := if b.cpulist == "" then [] else ["cpuset.mems=" + Itoa(b.node), "cpuset.cpus=" + b.cpulist];
    Reading(b.id, b.uid, b.gid, b.execFile, numa + b.cgroupArgs, b.cgroupVersion, b.parentCgroup, b.chrootBaseDir,
            b.netNS, b.daemonize, b.firecrackerArgs)
  }

  /** The flags that can follow the cgroups, in their order. */
  const FLAGS: seq<string> := ["--cgroup-version", "--parent-cgroup", "--chroot-base-dir", "--netns", "--daemonize", "--"]

  lemma FlagsDiffer()
    ensures forall i, j :: 0 <= i < j < |FLAGS| ==> FLAGS[i] != FLAGS[j]
    ensures forall i :: 0 <= i < |FLAGS| ==> FLAGS[i] != "--cgroup"
  {
    assert FLAGS[0][2] == 'c' && FLAGS[1][2] == 'p' && FLAGS[2][2] == 'c' && FLAGS[3][2] == 'n' && FLAGS[4][2] == 'd';
    assert FLAGS[0][3] == 'g' && FLAGS[2][3] == 'h';
    assert |FLAGS[0]| == 16 && |FLAGS[1]| == 15 && |FLAGS[2]| == 17 && |FLAGS[3]| == 7 && |FLAGS[4]| == 11 && |FLAGS[5]| == 2;
    assert |"--cgroup"| == 8;
  }

  /** args is empty or starts with FLAGS[k] or a later flag. */
  predicate StartsAt(args: seq<string>, k: nat) {
    args == [] || exists i :: k <= i < |FLAGS| && args[0] == FLAGS[i]
  }

  lemma {:induction false} OptionalTaken(k: nat, value: string, rest: seq<string>)
    requires k < 4 && StartsAt(rest, k + 1)
    ensures TakeOptional(Optional(FLAGS[k], value) + rest, FLAGS[k]) == (value, rest)
    ensures StartsAt(Optional(FLAGS[k], value) + rest, k)
  {
    FlagsDiffer();
    var all := Optional(FLAGS[k], value) + rest;
    if value == "" {
      assert all == rest;
    } else {
      assert all[0] == FLAGS[k] && all[1] == value && all[2..] == rest;
    }
  }

  lemma {:induction false} CgroupsTaken(entries: seq<string>, rest: seq<string>)
    requires StartsAt(rest, 0)
    ensures TakeCgroups(CgroupFlags(entries) + rest) == (entries, rest)
    decreases |entries|
  {
    FlagsDiffer();
    if entries == [] {
      assert CgroupFlags(entries) + rest == rest;
      assert rest == [] || rest[0] != "--cgroup";
    } else {
      CgroupsFromFront(entries);
      var all := CgroupFlags(entries) + rest;
      assert all[2..] == CgroupFlags(entries[1..]) + rest;
      CgroupsTaken(entries[1..], rest);
      assert [entries[0]] + entries[1..] == entries;
    }
  }

  lemma {:induction false} CgroupsFromFront(entries: seq<string>)
    requires entries != []
    ensures CgroupFlags(entries) == ["--cgroup", entries[0]] + CgroupFlags(entries[1..])
    decreases |entries|
  {
    var n := |entries| - 1;
    if n == 0 {
      assert entries[..0] == [] && entries[1..] == [];
    } else {
      CgroupsFromFront(entries[..n]);
      assert entries[..n][1..] == entries[1..][..n - 1];
      assert entries[1..][|entries[1..]| - 1] == entries[n];
    }
  }

  /** The optional part reads back. */
  lemma {:induction false} TailReads(b: Builder)
    ensures StartsAt(Tail(b), 0)
    ensures var (version, r1) := TakeOptional(Tail(b), FLAGS[0]);
            var (parent, r2) := TakeOptional(r1, FLAGS[1]);
            var (chroot, r3) := TakeOptional(r2, FLAGS[2]);
            var (netns, r4) := TakeOptional(r3, FLAGS[3]);
            var (daemonize, r5) := TakeDaemonize(r4);
            && version == b.cgroupVersion && parent == b.parentCgroup && chroot == b.chrootBaseDir && netns == b.netNS
            && daemonize == b.daemonize
            && r5 == if b.firecrackerArgs == [] then [] else ["--"] + b.firecrackerArgs
  {
    FlagsDiffer();
    var e5 := if b.firecrackerArgs == [] then [] else ["--"] + b.firecrackerArgs;
    assert e5 != [] ==> e5[0] == FLAGS[5];
    var e4 := (if b.daemonize then ["--daemonize"] else []) + e5;
    assert TakeDaemonize(e4) == (b.daemonize, e5) && StartsAt(e4, 4) by {
      if b.daemonize {
        assert e4[0] == FLAGS[4] && e4[1..] == e5;
      } else {
        assert e4 == e5;
      }
    }
    OptionalTaken(3, b.netNS, e4);
    var e3 := Optional(FLAGS[3], b.netNS) + e4;
    OptionalTaken(2, b.chrootBaseDir, e3);
    var e2 := Optional(FLAGS[2], b.chrootBaseDir) + e3;
    OptionalTaken(1, b.parentCgroup, e2);
    var e1 := Optional(FLAGS[1], b.parentCgroup) + e2;
    OptionalTaken(0, b.cgroupVersion, e1);
    assert Tail(b) == Optional(FLAGS[0], b.cgroupVersion) + e1;
  }

  /** Every field comes back from the command line, even when values look like flags. */
  lemma {:induction false} ArgsDecode(b: Builder)
    ensures Read(CommandLine(b)) == Some(Meaning(b))
  {
    AtoiItoa(b.uid);
    AtoiItoa(b.gid);
    HeadReads(b, CgroupFlags(CgroupEntries(b)) + Tail(b));
    TailReads(b);
    CgroupsTaken(CgroupEntries(b), Tail(b));
    NumaText(b);
    assert (["--"] + b.firecrackerArgs)[1..] == b.firecrackerArgs;
  }

  lemma {:induction false} NumaText(b: Builder)
    ensures NumaEntries(b) == if b.cpulist == "" then [] else ["cpuset.mems=" + Itoa(b.node), "cpuset.cpus=" + b.cpulist]
  {
    assert MEMS + "=" == "cpuset.mems=" && CPUS + "=" == "cpuset.cpus=";
  }

  lemma {:induction false} HeadReads(b: Builder, rest: seq<string>)
    ensures var args := Head(b) + rest;
            && |args| >= 8 && args[8..] == rest
            && args[0] == "--id" && args[2] == "--uid" && args[4] == "--gid" && args[6] == "--exec-file"
            && args[1] == b.id && args[3] == Itoa(b.uid) && args[5] == Itoa(b.gid) && args[7] == b.execFile
  {
  }

  /** So the command line determines what it was made from. */
  lemma {:induction false} ArgsInjective(a: Builder, b: Builder)
    requires CommandLine(a) == CommandLine(b)
    ensures Meaning(a) == Meaning(b)
  {
    ArgsDecode(a);
    ArgsDecode(b);
  }

  // ---------- which cgroup setting wins ----------

  /** The setting of a cgroup file when a later entry overrides an earlier one. */
  function LastWins(entries: seq<string>, file: string): Option<string> {
    if entries == [] then None
    else
      var last := entries[|entries| - 1];
      var eq := Until(last, '=');
      if eq < |last| && last[..eq] == file then Some(last[eq + 1..]) else LastWins(entries[..|entries| - 1], file)
  }

  /** The user's setting of a file takes precedence over the NUMA one, which stands
      where the user has none. */
  lemma {:induction false} UserCgroupsWin(b: Builder, user: seq<string>, file: string)
    ensures LastWins(NumaEntries(b) + user, file) ==
            if LastWins(user, file).Some? then LastWins(user, file) else LastWins(NumaEntries(b), file)
    decreases |user|
  {
    var all := NumaEntries(b) + user;
    if user == [] {
      assert all == NumaEntries(b);
    } else {
      assert all[..|all| - 1] == NumaEntries(b) + user[..|user| - 1];
      UserCgroupsWin(b, user[..|user| - 1], file);
    }
  }

  /** The NUMA entries set exactly the two cpuset files. */
  lemma {:induction false} NumaSettings(b: Builder, file: string)
    ensures LastWins(NumaEntries(b), file) ==
            if b.cpulist == "" then None
            else if file == "cpuset.cpus" then Some(b.cpulist)
            else if file == "cpuset.mems" then Some(Itoa(b.node)) else None
  {
    assert CPUS[7] == 'c' && MEMS[7] == 'm';
    if b.cpulist != "" {
      TwoEntries(MEMS, Itoa(b.node), CPUS, b.cpulist, file);
    }
  }

  /** What the jailer makes of the command line: each cgroup file is set as the user said,
      or else, for the two cpuset files, as the NUMA node asks. */
  lemma {:induction false} JailerSettings(b: Builder, file: string)
    ensures Read(CommandLine(b)).Some?
    ensures LastWins(Read(CommandLine(b)).value.cgroups, file) ==
            if LastWins(b.cgroupArgs, file).Some? then LastWins(b.cgroupArgs, file)
            else if b.cpulist != "" && file == "cpuset.cpus" then Some(b.cpulist)
            else if b.cpulist != "" && file == "cpuset.mems" then Some(Itoa(b.node))
            else None
  {
    ArgsDecode(b);
    NumaText(b);
    UserCgroupsWin(b, b.cgroupArgs, file);
    NumaSettings(b, file);
  }

  lemma {:induction false} TwoEntries(f: string, v: string, g: string, w: string, file: string)
    requires '=' !in f && '=' !in g
    ensures LastWins([f + "=" + v, g + "=" + w], file) ==
            if file == g then Some(w) else if file == f then Some(v) else None
  {
    var e := [f + "=" + v, g + "=" + w];
    EntryReads(f, v);
    EntryReads(g, w);
    assert e[0] == f + ("=" + v) && e[1] == g + ("=" + w);
    var one := e[..1];
    assert one[|one| - 1] == e[0] && one[..0] == [];
    assert LastWins(one, file) == if file == f then Some(v) else None;
    assert e[..|e| - 1] == one;
  }

  lemma {:induction false} EntryReads(file: string, value: string)
    requires '=' !in file
    ensures var e := file + ("=" + value);
            Until(e, '=') == |file| && e[..|file|] == file && e[|file| + 1..] == value
  {
    UntilOf(file, '=', "=" + value);
  }
}
