/** Model of the dependency build controller (script/setup-boost.py).

    The script derives the Boost archive and directory names from a version
    triple, then walks a gate chain: a marker file short-circuits everything;
    otherwise the extraction directory is made (downloading the tarball only
    if it is missing too), b2 is bootstrapped if missing, Boost is built and
    the marker is touched. Every failed gate prints an ERROR line and exits 1.

    The filesystem is the set of existing files and directories. Every external
    command is an oracle from the command and the current filesystem to an exit
    code and the filesystem it leaves behind. */
module SetupBoost {

  import opened PosixPath
  import opened Wrappers

  // ---------------------------------------------------------------------------
  // Names derived from the version
  // ---------------------------------------------------------------------------

  /** The parsed command line (every option is required). */
  datatype Args = Args(major: string, minor: string, patch: string, url: string, builtFile: string)

  /** boost_underscore_version */
  function UnderscoreVersion(a: Args): string
  {
    "boost_" + a.major + "_" + a.minor + "_" + a.patch
  }

  /** boost_tarball */
  function Tarball(a: Args): string
  {
    UnderscoreVersion(a) + ".tar.gz"
  }

  /** boost_dir */
  function BoostDir(a: Args): string
  {
    "boost/" + UnderscoreVersion(a)
  }

  predicate NoUnderscore(s: string)
  {
    forall k :: 0 <= k < |s| ==> s[k] != '_'
  }

  /** The version fields are recoverable from the name, so distinct versions get
      distinct names, as long as no field contains an underscore. */
  lemma UnderscoreVersionInjective(a: Args, b: Args)
    requires NoUnderscore(a.major) && NoUnderscore(a.minor)
    requires NoUnderscore(b.major) && NoUnderscore(b.minor)
    requires UnderscoreVersion(a) == UnderscoreVersion(b)
    ensures a.major == b.major && a.minor == b.minor && a.patch == b.patch
  {
    var s, t := UnderscoreVersion(a), UnderscoreVersion(b);
    assert s == "boost_" + (a.major + "_" + (a.minor + "_" + a.patch));
    assert t == "boost_" + (b.major + "_" + (b.minor + "_" + b.patch));
    assert s[6..] == a.major + "_" + (a.minor + "_" + a.patch);
    assert t[6..] == b.major + "_" + (b.minor + "_" + b.patch);
    SplitAtUnderscore(a.major, a.minor + "_" + a.patch, b.major, b.minor + "_" + b.patch);
    SplitAtUnderscore(a.minor, a.patch, b.minor, b.patch);
  }

  /** The tarball name determines the version the same way. */
  lemma TarballInjective(a: Args, b: Args)
    requires NoUnderscore(a.major) && NoUnderscore(a.minor)
    requires NoUnderscore(b.major) && NoUnderscore(b.minor)
    requires Tarball(a) == Tarball(b)
    ensures a.major == b.major && a.minor == b.minor && a.patch == b.patch
  {
    var u, v := UnderscoreVersion(a), UnderscoreVersion(b);
    assert u == Tarball(a)[..|u|] && v == Tarball(b)[..|v|];
    UnderscoreVersionInjective(a, b);
  }

  /** So does the directory name. */
  lemma BoostDirInjective(a: Args, b: Args)
    requires NoUnderscore(a.major) && NoUnderscore(a.minor)
    requires NoUnderscore(b.major) && NoUnderscore(b.minor)
    requires BoostDir(a) == BoostDir(b)
    ensures a.major == b.major && a.minor == b.minor && a.patch == b.patch
  {
    assert UnderscoreVersion(a) == BoostDir(a)[6..] && UnderscoreVersion(b) == BoostDir(b)[6..];
    UnderscoreVersionInjective(a, b);
  }

  /** x + "_" + y determines x and y when x has no underscore. */
  lemma SplitAtUnderscore(x: string, y: string, x': string, y': string)
    requires NoUnderscore(x) && NoUnderscore(x')
    requires x + "_" + y == x' + "_" + y'
    ensures x == x' && y == y'
  {
    var s := x + "_" + y;
    if |x| < |x'| {
      JoinedAt(x, y, |x|);
      JoinedAt(x', y', |x|);
      assert false;
    } else if |x'| < |x| {
      JoinedAt(x', y', |x'|);
      JoinedAt(x, y, |x'|);
      assert false;
    } else {
      assert x == s[..|x|] == x';
      assert y == s[|x| + 1..] == y';
    }
  }

  /** The character at k of x + "_" + y, for k up to the separator. */
  lemma JoinedAt(x: string, y: string, k: int)
    ensures 0 <= k < |x| ==> (x + "_" + y)[k] == x[k]
    ensures k == |x| ==> (x + "_" + y)[k] == '_'
  {
  }

  // ---------------------------------------------------------------------------
  // Filesystem, commands and the command oracle
  // ---------------------------------------------------------------------------

  /** What exists: verify_file is membership in files, verify_dir in dirs. */
  datatype Fs = Fs(files: set<string>, dirs: set<string>)

  /** A process to spawn: its argument vector and its working directory
      (None: the script's own current directory). */
  datatype Cmd = Cmd(argv: seq<string>, cwd: Option<string>)

  /** What the oracle says a command did: its exit code and the filesystem after it. */
  datatype Effect = Effect(rc: int, fs: Fs)

  /** download_boost: wget into the current directory. */
  function Wget(a: Args): Cmd
  {
    Cmd(["wget", a.url], None)
  }

  function Mkdir(dir: string): Cmd
  {
    Cmd(["mkdir", "-p", dir], None)
  }

  /** extract_tarball */
  function Extract(tarball: string, dest: string): Cmd
  {
    Cmd(["tar", "-xzvf", tarball, "-C", dest], None)
  }

  function Bootstrap(broot: string): Cmd
  {
    Cmd([PathJoin(broot, "bootstrap.sh")], Some(broot))
  }

  function BuildB2(broot: string): Cmd
  {
    Cmd([PathJoin(broot, "b2"), "--with-context", "--with-coroutine", "--with-thread"], Some(broot))
  }

  /** touch_built: the bare marker name, relative to the current directory. */
  function Touch(a: Args): Cmd
  {
    Cmd(["touch", a.builtFile], None)
  }

  /** The paths main derives from root_dir. */
  function Marker(a: Args, root: string): string { PathJoin(root, a.builtFile) }
  function BoostRoot(a: Args, root: string): string { PathJoin(root, BoostDir(a)) }
  function TarballPath(a: Args, root: string): string { PathJoin(root, Tarball(a)) }
  function ExtractRoot(root: string): string { PathJoin(root, "boost") }

  /** Every command main may spawn, in the order it may spawn them. */
  function Plan(a: Args, root: string): seq<Cmd>
  {
    [Wget(a), Mkdir(ExtractRoot(root)), Extract(TarballPath(a, root), ExtractRoot(root)),
     Bootstrap(BoostRoot(a, root)), BuildB2(BoostRoot(a, root)), Touch(a)]
  }

  // ---------------------------------------------------------------------------
  // The gate chain as a function of the starting state
  // ---------------------------------------------------------------------------

  /** What has happened so far: commands spawned, lines printed, the filesystem. */
  datatype Trace = Trace(issued: seq<Cmd>, stdout: seq<string>, fs: Fs)

  /** How main ends: the exit status and the trace at exit. */
  datatype Outcome = Outcome(exitCode: int, issued: seq<Cmd>, stdout: seq<string>, fs: Fs)

  /** execute: spawn the command; success iff it exits 0. */
  function Exec(t: Trace, c: Cmd, host: (Cmd, Fs) -> Effect): (bool, Trace)
  {
    var e := host(c, t.fs);
    (e.rc == 0, Trace(t.issued + [c], t.stdout, e.fs))
  }

  function Say(t: Trace, line: string): Trace
  {
    t.(stdout := t.stdout + [line])
  }

  /** perror then sys.exit(1). */
  function Fail(t: Trace, msg: string): Outcome
  {
    Outcome(1, t.issued, t.stdout + ["ERROR:" + msg], t.fs)
  }

  /** print('boost built') then sys.exit(0). */
  function Done(t: Trace): Outcome
  {
    Outcome(0, t.issued, t.stdout + ["boost built"], t.fs)
  }

  /** main, from a given trace. */
  function RunFrom(a: Args, root: string, t: Trace, host: (Cmd, Fs) -> Effect): Outcome
  {
    if Marker(a, root) in t.fs.files then Done(t)
    else
      var broot := BoostRoot(a, root);
      var t := Say(t, "boost root:" + broot);
      if broot !in t.fs.dirs then Fetch(a, root, t, host) else Prepare(a, root, t, host)
  }

  /** The extraction directory is missing: obtain the tarball if needed. */
  function Fetch(a: Args, root: string, t: Trace, host: (Cmd, Fs) -> Effect): Outcome
  {
    var btarball := TarballPath(a, root);
    var t := Say(t, "boost tarball:$" + btarball);
    if btarball in t.fs.files then Unpack(a, root, t, host)
    else
      var (ok, t) := Exec(t, Wget(a), host);
      if !ok then Fail(t, "cannot download boost")
      else if btarball !in t.fs.files then Fail(t, "boost tarball missing")
      else Unpack(a, root, t, host)
  }

  /** mkdir -p, extract, then check that the directory appeared. */
  function Unpack(a: Args, root: string, t: Trace, host: (Cmd, Fs) -> Effect): Outcome
  {
    var brootRoot := ExtractRoot(root);
    var (ok, t) := Exec(t, Mkdir(brootRoot), host);
    if !ok then Fail(t, "cannot make directory " + brootRoot)
    else
      var (ok, t) := Exec(t, Extract(TarballPath(a, root), brootRoot), host);
      if !ok then Fail(t, "cannot extract boost")
      else if BoostRoot(a, root) !in t.fs.dirs then Fail(t, "boost directory missing")
      else Prepare(a, root, t, host)
  }

  /** Bootstrap b2 if it is missing. */
  function Prepare(a: Args, root: string, t: Trace, host: (Cmd, Fs) -> Effect): Outcome
  {
    var broot := BoostRoot(a, root);
    var b2 := PathJoin(broot, "b2");
    var t := Say(t, "b2:" + b2);
    if b2 in t.fs.files then Compile(a, root, t, host)
    else
      var bootstrap := PathJoin(broot, "bootstrap.sh");
      var t := Say(t, "bootstrap:" + bootstrap);
      if bootstrap !in t.fs.files then Fail(t, "boost bootstrap.sh missing")
      else
        var (ok, t) := Exec(t, Bootstrap(broot), host);
        if !ok then Fail(t, "could not bootstrap boost")
        else if b2 !in t.fs.files then Fail(t, "b2 missing")
        else Compile(a, root, t, host)
  }

  /** Build with b2, then touch the marker. */
  function Compile(a: Args, root: string, t: Trace, host: (Cmd, Fs) -> Effect): Outcome
  {
    var (ok, t) := Exec(t, BuildB2(BoostRoot(a, root)), host);
    if !ok then Fail(t, "could not build boost")
    else
      var (ok, t) := Exec(t, Touch(a), host);
      if !ok then Fail(t, "could not create " + a.builtFile)
      else Done(t)
  }

  /** main on a fresh process. */
  function Run(a: Args, root: string, fs: Fs, host: (Cmd, Fs) -> Effect): Outcome
  {
    RunFrom(a, root, Trace([], [], fs), host)
  }

  // ---------------------------------------------------------------------------
  // Properties of the gate chain
  // ---------------------------------------------------------------------------

  /** An existing marker means no command runs and the script reports success. */
  lemma MarkerShortCircuits(a: Args, root: string, fs: Fs, host: (Cmd, Fs) -> Effect)
    requires Marker(a, root) in fs.files
    ensures Run(a, root, fs, host) == Outcome(0, [], ["boost built"], fs)
  {
  }

  predicate IsError(line: string)
  {
    |line| >= 6 && line[..6] == "ERROR:"
  }

  /** Every way out of main: success prints "boost built", failure an ERROR line. */
  predicate WellEnded(o: Outcome)
  {
    o.stdout != []
    && ((o.exitCode == 0 && o.stdout[|o.stdout| - 1] == "boost built")
        || (o.exitCode == 1 && IsError(o.stdout[|o.stdout| - 1])))
  }

  /** main exits 0 after printing "boost built" last, or 1 after printing an
      ERROR line last; there is no other way out. */
  lemma ExitStatus(a: Args, root: string, fs: Fs, host: (Cmd, Fs) -> Effect)
    ensures WellEnded(Run(a, root, fs, host))
  {
    EndsWell(a, root, Trace([], [], fs), host);
  }

  lemma EndsWell(a: Args, root: string, t: Trace, host: (Cmd, Fs) -> Effect)
    ensures WellEnded(RunFrom(a, root, t, host))
  {
    var broot := BoostRoot(a, root);
    var t1 := Say(t, "boost root:" + broot);
    var btarball := TarballPath(a, root);
    var t2 := Say(t1, "boost tarball:$" + btarball);
    var (ok, t3) := Exec(t2, Wget(a), host);
    UnpackEndsWell(a, root, t2, host);
    UnpackEndsWell(a, root, t3, host);
    PrepareEndsWell(a, root, t1, host);
    FailEndsWell(t3, "cannot download boost");
    FailEndsWell(t3, "boost tarball missing");
  }

  lemma UnpackEndsWell(a: Args, root: string, t: Trace, host: (Cmd, Fs) -> Effect)
    ensures WellEnded(Unpack(a, root, t, host))
  {
    var brootRoot := ExtractRoot(root);
    var (ok, t1) := Exec(t, Mkdir(brootRoot), host);
    var (ok2, t2) := Exec(t1, Extract(TarballPath(a, root), brootRoot), host);
    FailEndsWell(t1, "cannot make directory " + brootRoot);
    FailEndsWell(t2, "cannot extract boost");
    FailEndsWell(t2, "boost directory missing");
    PrepareEndsWell(a, root, t2, host);
  }

  lemma PrepareEndsWell(a: Args, root: string, t: Trace, host: (Cmd, Fs) -> Effect)
    ensures WellEnded(Prepare(a, root, t, host))
  {
    var broot := BoostRoot(a, root);
    var b2 := PathJoin(broot, "b2");
    var t1 := Say(t, "b2:" + b2);
    var bootstrap := PathJoin(broot, "bootstrap.sh");
    var t2 := Say(t1, "bootstrap:" + bootstrap);
    var (ok, t3) := Exec(t2, Bootstrap(broot), host);
    FailEndsWell(t2, "boost bootstrap.sh missing");
    FailEndsWell(t3, "could not bootstrap boost");
    FailEndsWell(t3, "b2 missing");
    CompileEndsWell(a, root, t1, host);
    CompileEndsWell(a, root, t3, host);
  }

  lemma CompileEndsWell(a: Args, root: string, t: Trace, host: (Cmd, Fs) -> Effect)
    ensures WellEnded(Compile(a, root, t, host))
  {
    var (ok, t1) := Exec(t, BuildB2(BoostRoot(a, root)), host);
    var (ok2, t2) := Exec(t1, Touch(a), host);
    FailEndsWell(t1, "could not build boost");
    FailEndsWell(t2, "could not create " + a.builtFile);
  }

  lemma FailEndsWell(t: Trace, msg: string)
    ensures WellEnded(Fail(t, msg))
  {
    var line := Fail(t, msg).stdout[|Fail(t, msg).stdout| - 1];
    assert line == "ERROR:" + msg;
    assert line[..6] == "ERROR:";
  }

  /** A download that succeeds but leaves no tarball under root_dir still stops
      the script, right after the download, with "boost tarball missing". */
  lemma DownloadWithoutTarballFails(a: Args, root: string, fs: Fs, host: (Cmd, Fs) -> Effect)
    requires Marker(a, root) !in fs.files && BoostRoot(a, root) !in fs.dirs
    requires TarballPath(a, root) !in fs.files
    requires host(Wget(a), fs).rc == 0 && TarballPath(a, root) !in host(Wget(a), fs).fs.files
    ensures Run(a, root, fs, host) ==
      Outcome(1, [Wget(a)],
              ["boost root:" + BoostRoot(a, root), "boost tarball:$" + TarballPath(a, root),
               "ERROR:boost tarball missing"],
              host(Wget(a), fs).fs)
  {
    var t0 := Trace([], [], fs);
    var t1 := Say(t0, "boost root:" + BoostRoot(a, root));
    assert Run(a, root, fs, host) == Fetch(a, root, t1, host) by {
      assert Run(a, root, fs, host) == RunFrom(a, root, t0, host);
    }
    FetchWithoutTarball(a, root, t1, host);
    assert "ERROR:" + "boost tarball missing" == "ERROR:boost tarball missing";
  }

  /** Fetch after a download that leaves no tarball: one command, the
      download, and the "boost tarball missing" failure. */
  lemma FetchWithoutTarball(a: Args, root: string, t: Trace, host: (Cmd, Fs) -> Effect)
    requires TarballPath(a, root) !in t.fs.files
    requires host(Wget(a), t.fs).rc == 0 && TarballPath(a, root) !in host(Wget(a), t.fs).fs.files
    ensures Fetch(a, root, t, host) ==
      Fail(Trace(t.issued + [Wget(a)], t.stdout + ["boost tarball:$" + TarballPath(a, root)], host(Wget(a), t.fs).fs),
           "boost tarball missing")
  {
  }

  /** With the marker absent and both the directory and b2 present, the build
      is the first command, with exactly the three library flags, run inside the
      extraction directory; only the marker touch may follow it. */
  lemma BuildRunsWhenPrepared(a: Args, root: string, fs: Fs, host: (Cmd, Fs) -> Effect)
    requires Marker(a, root) !in fs.files && BoostRoot(a, root) in fs.dirs
    requires PathJoin(BoostRoot(a, root), "b2") in fs.files
    ensures var o := Run(a, root, fs, host);
      && o.issued != [] && o.issued[0] == BuildB2(BoostRoot(a, root))
      && o.issued[0].argv[1..] == ["--with-context", "--with-coroutine", "--with-thread"]
      && o.issued[0].cwd == Some(BoostRoot(a, root))
      && (o.issued == [BuildB2(BoostRoot(a, root))] || o.issued == [BuildB2(BoostRoot(a, root)), Touch(a)])
  {
  }

  /** A successful run that did not find the marker ended by building and then
      touching the marker, both of which succeeded. */
  lemma SuccessTouchesMarkerLast(a: Args, root: string, fs: Fs, host: (Cmd, Fs) -> Effect)
    requires Marker(a, root) !in fs.files
    requires Run(a, root, fs, host).exitCode == 0
    ensures var o := Run(a, root, fs, host);
      |o.issued| >= 2 && o.issued[|o.issued| - 2..] == [BuildB2(BoostRoot(a, root)), Touch(a)]
  {
    SuccessEndsWithBuild(a, root, Trace([], [], fs), host);
  }

  /** The last two commands of any successful run from a trace without the marker. */
  lemma SuccessEndsWithBuild(a: Args, root: string, t: Trace, host: (Cmd, Fs) -> Effect)
    requires Marker(a, root) !in t.fs.files
    requires RunFrom(a, root, t, host).exitCode == 0
    ensures var o := RunFrom(a, root, t, host);
      |o.issued| >= 2 && o.issued[|o.issued| - 2..] == [BuildB2(BoostRoot(a, root)), Touch(a)]
  {
    var broot := BoostRoot(a, root);
    var t1 := Say(t, "boost root:" + broot);
    var btarball := TarballPath(a, root);
    var t2 := Say(t1, "boost tarball:$" + btarball);
    var (ok, t3) := Exec(t2, Wget(a), host);
    if broot !in t1.fs.dirs {
      if btarball in t2.fs.files {
        UnpackSuccessEnds(a, root, t2, host);
      } else {
        UnpackSuccessEnds(a, root, t3, host);
      }
    } else {
      PrepareSuccessEnds(a, root, t1, host);
    }
  }

  lemma UnpackSuccessEnds(a: Args, root: string, t: Trace, host: (Cmd, Fs) -> Effect)
    ensures var o := Unpack(a, root, t, host);
      o.exitCode == 0 ==> |o.issued| >= 2 && o.issued[|o.issued| - 2..] == [BuildB2(BoostRoot(a, root)), Touch(a)]
  {
    var brootRoot := ExtractRoot(root);
    var (ok, t1) := Exec(t, Mkdir(brootRoot), host);
    var (ok2, t2) := Exec(t1, Extract(TarballPath(a, root), brootRoot), host);
    PrepareSuccessEnds(a, root, t2, host);
  }

  lemma PrepareSuccessEnds(a: Args, root: string, t: Trace, host: (Cmd, Fs) -> Effect)
    ensures var o := Prepare(a, root, t, host);
      o.exitCode == 0 ==> |o.issued| >= 2 && o.issued[|o.issued| - 2..] == [BuildB2(BoostRoot(a, root)), Touch(a)]
  {
    var broot := BoostRoot(a, root);
    var t1 := Say(t, "b2:" + PathJoin(broot, "b2"));
    var t2 := Say(t1, "bootstrap:" + PathJoin(broot, "bootstrap.sh"));
    var (ok, t3) := Exec(t2, Bootstrap(broot), host);
    CompileSuccessEnds(a, root, t1, host);
    CompileSuccessEnds(a, root, t3, host);
  }

  lemma CompileSuccessEnds(a: Args, root: string, t: Trace, host: (Cmd, Fs) -> Effect)
    ensures var o := Compile(a, root, t, host);
      o.exitCode == 0 ==> |o.issued| >= 2 && o.issued[|o.issued| - 2..] == [BuildB2(BoostRoot(a, root)), Touch(a)]
  {
    var (ok, t1) := Exec(t, BuildB2(BoostRoot(a, root)), host);
    var (ok2, t2) := Exec(t1, Touch(a), host);
    if ok && ok2 {
      assert t2.issued == t.issued + [BuildB2(BoostRoot(a, root))] + [Touch(a)];
    }
  }

  /** The marker is checked under root_dir but touched by its bare name in the
      current directory; for a relative marker name and a non-empty root those
      are different paths. The download, too, runs in the current directory. */
  lemma MarkerPathBasesDiffer(a: Args, root: string)
    requires root != [] && (a.builtFile == [] || a.builtFile[0] != '/')
    ensures Touch(a).argv[1] == a.builtFile && Touch(a).cwd.None?
    ensures Marker(a, root) != a.builtFile
    ensures Wget(a).cwd.None?
  {
    JoinRelative(root, a.builtFile);
  }

  // ---------------------------------------------------------------------------
  // Which commands run, and in which order
  // ---------------------------------------------------------------------------

  /** xs is ys with some elements left out. */
  predicate Subseq(xs: seq<Cmd>, ys: seq<Cmd>)
    decreases |ys|
  {
    if xs == [] then true
    else if ys == [] then false
    else (xs[0] == ys[0] && Subseq(xs[1..], ys[1..])) || Subseq(xs, ys[1..])
  }

  lemma SubseqTake(x: Cmd, xs: seq<Cmd>, ys: seq<Cmd>)
    requires Subseq(xs, ys)
    ensures Subseq([x] + xs, [x] + ys)
  {
    assert ([x] + xs)[1..] == xs && ([x] + ys)[1..] == ys;
  }

  lemma SubseqSkip(x: Cmd, xs: seq<Cmd>, ys: seq<Cmd>)
    requires Subseq(xs, ys)
    ensures Subseq(xs, [x] + ys)
  {
    assert ([x] + ys)[1..] == ys;
  }

  lemma {:induction false} SubseqMember(xs: seq<Cmd>, ys: seq<Cmd>, c: Cmd)
    requires Subseq(xs, ys) && c in xs
    ensures c in ys
    decreases |ys|
  {
    if xs[0] == ys[0] && Subseq(xs[1..], ys[1..]) {
      if c != xs[0] {
        SubseqMember(xs[1..], ys[1..], c);
      }
    } else {
      SubseqMember(xs, ys[1..], c);
    }
  }

  /** o's commands are t's followed by a sub-sequence of tail. */
  predicate IssuesFrom(o: Outcome, t: Trace, tail: seq<Cmd>)
  {
    |t.issued| <= |o.issued| && o.issued[..|t.issued|] == t.issued && Subseq(o.issued[|t.issued|..], tail)
  }

  lemma IssuesStep(o: Outcome, t: Trace, c: Cmd, t': Trace, tail: seq<Cmd>)
    requires t'.issued == t.issued + [c] && IssuesFrom(o, t', tail)
    ensures IssuesFrom(o, t, [c] + tail)
  {
    assert o.issued[..|t.issued|] == o.issued[..|t'.issued|][..|t.issued|];
    assert o.issued[|t.issued|..] == [c] + o.issued[|t'.issued|..];
    SubseqTake(c, o.issued[|t'.issued|..], tail);
  }

  lemma IssuesSkip(o: Outcome, t: Trace, c: Cmd, tail: seq<Cmd>)
    requires IssuesFrom(o, t, tail)
    ensures IssuesFrom(o, t, [c] + tail)
  {
    SubseqSkip(c, o.issued[|t.issued|..], tail);
  }

  lemma FailIssues(t: Trace, msg: string, tail: seq<Cmd>)
    ensures IssuesFrom(Fail(t, msg), t, tail)
  {
    assert Fail(t, msg).issued[|t.issued|..] == [];
  }

  lemma DoneIssues(t: Trace, tail: seq<Cmd>)
    ensures IssuesFrom(Done(t), t, tail)
  {
    assert Done(t).issued[|t.issued|..] == [];
  }

  lemma CompileIssues(a: Args, root: string, t: Trace, host: (Cmd, Fs) -> Effect)
    ensures IssuesFrom(Compile(a, root, t, host), t, [BuildB2(BoostRoot(a, root)), Touch(a)])
  {
    var b, tc := BuildB2(BoostRoot(a, root)), Touch(a);
    var (ok, t1) := Exec(t, b, host);
    var (ok2, t2) := Exec(t1, tc, host);
    var o := Compile(a, root, t, host);
    if !ok {
      FailIssues(t1, "could not build boost", [tc]);
    } else if !ok2 {
      FailIssues(t2, "could not create " + a.builtFile, []);
      IssuesStep(o, t1, tc, t2, []);
    } else {
      DoneIssues(t2, []);
      IssuesStep(o, t1, tc, t2, []);
    }
    IssuesStep(o, t, b, t1, [tc]);
  }

  lemma PrepareIssues(a: Args, root: string, t: Trace, host: (Cmd, Fs) -> Effect)
    ensures IssuesFrom(Prepare(a, root, t, host), t, Plan(a, root)[3..])
  {
    var broot := BoostRoot(a, root);
    var b2 := PathJoin(broot, "b2");
    var t1 := Say(t, "b2:" + b2);
    var bootstrap := PathJoin(broot, "bootstrap.sh");
    var t2 := Say(t1, "bootstrap:" + bootstrap);
    var (ok, t3) := Exec(t2, Bootstrap(broot), host);
    var tail := [BuildB2(broot), Touch(a)];
    assert Plan(a, root)[3..] == [Bootstrap(broot)] + tail;
    var o := Prepare(a, root, t, host);
    if b2 in t1.fs.files {
      CompileIssues(a, root, t1, host);
      IssuesSkip(o, t, Bootstrap(broot), tail);
    } else if bootstrap !in t2.fs.files {
      FailIssues(t2, "boost bootstrap.sh missing", [Bootstrap(broot)] + tail);
    } else {
      if !ok {
        FailIssues(t3, "could not bootstrap boost", tail);
      } else if b2 !in t3.fs.files {
        FailIssues(t3, "b2 missing", tail);
      } else {
        CompileIssues(a, root, t3, host);
      }
      IssuesStep(o, t2, Bootstrap(broot), t3, tail);
    }
  }

  lemma UnpackIssues(a: Args, root: string, t: Trace, host: (Cmd, Fs) -> Effect)
    ensures IssuesFrom(Unpack(a, root, t, host), t, Plan(a, root)[1..])
  {
    var brootRoot := ExtractRoot(root);
    var m, x := Mkdir(brootRoot), Extract(TarballPath(a, root), brootRoot);
    var (ok, t1) := Exec(t, m, host);
    var (ok2, t2) := Exec(t1, x, host);
    var tail := Plan(a, root)[3..];
    assert Plan(a, root)[1..] == [m] + ([x] + tail);
    var o := Unpack(a, root, t, host);
    if !ok {
      FailIssues(t1, "cannot make directory " + brootRoot, [x] + tail);
    } else {
      if !ok2 {
        FailIssues(t2, "cannot extract boost", tail);
      } else if BoostRoot(a, root) !in t2.fs.dirs {
        FailIssues(t2, "boost directory missing", tail);
      } else {
        PrepareIssues(a, root, t2, host);
      }
      IssuesStep(o, t1, x, t2, tail);
    }
    IssuesStep(o, t, m, t1, [x] + tail);
  }

  /** main spawns a sub-sequence of wget, mkdir, tar, bootstrap, b2, touch:
      never out of order and never twice. */
  lemma CommandsFollowPlan(a: Args, root: string, t: Trace, host: (Cmd, Fs) -> Effect)
    ensures IssuesFrom(RunFrom(a, root, t, host), t, Plan(a, root))
  {
    var plan := Plan(a, root);
    var o := RunFrom(a, root, t, host);
    var broot := BoostRoot(a, root);
    var t1 := Say(t, "boost root:" + broot);
    var btarball := TarballPath(a, root);
    var t2 := Say(t1, "boost tarball:$" + btarball);
    var (ok, t3) := Exec(t2, Wget(a), host);
    assert plan == [Wget(a)] + plan[1..];
    assert plan[1..] == [plan[1]] + ([plan[2]] + plan[3..]);
    if Marker(a, root) in t.fs.files {
      DoneIssues(t, plan);
    } else if broot in t1.fs.dirs {
      PrepareIssues(a, root, t1, host);
      IssuesSkip(o, t, plan[2], plan[3..]);
      IssuesSkip(o, t, plan[1], [plan[2]] + plan[3..]);
      IssuesSkip(o, t, Wget(a), plan[1..]);
    } else if btarball in t2.fs.files {
      UnpackIssues(a, root, t2, host);
      IssuesSkip(o, t, Wget(a), plan[1..]);
    } else {
      if !ok {
        FailIssues(t3, "cannot download boost", plan[1..]);
      } else if btarball !in t3.fs.files {
        FailIssues(t3, "boost tarball missing", plan[1..]);
      } else {
        UnpackIssues(a, root, t3, host);
      }
      IssuesStep(o, t2, Wget(a), t3, plan[1..]);
    }
  }

  /** A download is attempted exactly when the marker, the extraction directory
      and the tarball are all missing, and it is then the first command. */
  lemma DownloadOnlyWhenAllMissing(a: Args, root: string, fs: Fs, host: (Cmd, Fs) -> Effect)
    ensures var o := Run(a, root, fs, host);
      Wget(a) in o.issued <==>
        Marker(a, root) !in fs.files && BoostRoot(a, root) !in fs.dirs && TarballPath(a, root) !in fs.files
    ensures var o := Run(a, root, fs, host);
      Wget(a) in o.issued ==> o.issued[0] == Wget(a)
  {
    var t := Trace([], [], fs);
    var o := Run(a, root, fs, host);
    var plan := Plan(a, root);
    var broot := BoostRoot(a, root);
    var t1 := Say(t, "boost root:" + broot);
    var t2 := Say(t1, "boost tarball:$" + TarballPath(a, root));
    if Marker(a, root) in fs.files {
    } else if broot in fs.dirs {
      assert o == Prepare(a, root, t1, host);
      PrepareIssues(a, root, t1, host);
      NoWgetAfter(o.issued, plan[3..], a, root);
    } else if TarballPath(a, root) in fs.files {
      assert o == Unpack(a, root, t2, host) by {
        assert o == Fetch(a, root, t1, host);
      }
      UnpackIssues(a, root, t2, host);
      NoWgetAfter(o.issued, plan[1..], a, root);
    } else {
      var (ok, t3) := Exec(t2, Wget(a), host);
      assert t3.issued == [Wget(a)];
      assert o == Fetch(a, root, t1, host);
      if ok && TarballPath(a, root) in t3.fs.files {
        assert o == Unpack(a, root, t3, host);
        UnpackIssues(a, root, t3, host);
        assert o.issued[..1] == [Wget(a)];
      } else {
        assert o.issued == [Wget(a)];
      }
    }
  }

  /** No command after the download step is the download. */
  lemma NoWgetAfter(issued: seq<Cmd>, tail: seq<Cmd>, a: Args, root: string)
    requires tail == Plan(a, root)[1..] || tail == Plan(a, root)[3..]
    requires Subseq(issued[0..], tail)
    ensures Wget(a) !in issued
  {
    assert issued[0..] == issued;
    if Wget(a) in issued {
      SubseqMember(issued, tail, Wget(a));
    }
  }

  // ---------------------------------------------------------------------------
  // The script process
  // ---------------------------------------------------------------------------

  /** The script's observable state: the filesystem, what it printed and the
      processes it spawned. */
  class Machine {
    var fs: Fs
    var stdout: seq<string>
    var issued: seq<Cmd>

    constructor (fs0: Fs)
      ensures fs == fs0 && stdout == [] && issued == []
    {
      fs, stdout, issued := fs0, [], [];
    }

    /** execute(cmd): spawn it, wait, report whether it exited 0. */
    method Execute(c: Cmd, host: (Cmd, Fs) -> Effect) returns (ok: bool)
      modifies this
      ensures (ok, Trace(issued, stdout, fs)) == Exec(Trace(old(issued), old(stdout), old(fs)), c, host)
    {
      var e := host(c, fs);
      issued := issued + [c];
      fs := e.fs;
      ok := e.rc == 0;
    }

    method Print(line: string)
      modifies this
      ensures Trace(issued, stdout, fs) == Say(Trace(old(issued), old(stdout), old(fs)), line)
    {
      stdout := stdout + [line];
    }

    /** main: the gate chain, leaving through sys.exit with the returned code. */
    method SetupBoost(a: Args, root: string, host: (Cmd, Fs) -> Effect) returns (exitCode: int)
      modifies this
      ensures Outcome(exitCode, issued, stdout, fs) == RunFrom(a, root, Trace(old(issued), old(stdout), old(fs)), host)
    {
      if Marker(a, root) !in fs.files {
        var broot := BoostRoot(a, root);
        Print("boost root:" + broot);

        if broot !in fs.dirs {
          var btarball := TarballPath(a, root);
          Print("boost tarball:$" + btarball);

          if btarball !in fs.files {
            var ok := Execute(Wget(a), host);
            if !ok {
              exitCode := PrintError("cannot download boost");
              return;
            }
            if btarball !in fs.files {
              exitCode := PrintError("boost tarball missing");
              return;
            }
          }
          ghost var tu := Trace(issued, stdout, fs);

          var brootRoot := ExtractRoot(root);
          var ok := Execute(Mkdir(brootRoot), host);
          if !ok {
            exitCode := PrintError("cannot make directory " + brootRoot);
            return;
          }
          ok := Execute(Extract(btarball, brootRoot), host);
          if !ok {
            exitCode := PrintError("cannot extract boost");
            return;
          }
          if broot !in fs.dirs {
            exitCode := PrintError("boost directory missing");
            return;
          }
          exitCode := PrepareAndBuild(a, root, host);
          assert Unpack(a, root, tu, host) == Outcome(exitCode, issued, stdout, fs);
          return;
        }
        exitCode := PrepareAndBuild(a, root, host);
        return;
      }
      Print("boost built");
      exitCode := 0;
    }

    /** The part of main after the extraction directory exists. */
    method PrepareAndBuild(a: Args, root: string, host: (Cmd, Fs) -> Effect) returns (exitCode: int)
      modifies this
      ensures Outcome(exitCode, issued, stdout, fs) == Prepare(a, root, Trace(old(issued), old(stdout), old(fs)), host)
    {
      var broot := BoostRoot(a, root);
      var b2 := PathJoin(broot, "b2");
      Print("b2:" + b2);

      if b2 !in fs.files {
        var bootstrap := PathJoin(broot, "bootstrap.sh");
        Print("bootstrap:" + bootstrap);

        if bootstrap !in fs.files {
          exitCode := PrintError("boost bootstrap.sh missing");
          return;
        }
        var ok := Execute(Bootstrap(broot), host);
        if !ok {
          exitCode := PrintError("could not bootstrap boost");
          return;
        }
        if b2 !in fs.files {
          exitCode := PrintError("b2 missing");
          return;
        }
      }
      ghost var tc := Trace(issued, stdout, fs);
      var ok := Execute(BuildB2(broot), host);
      if !ok {
        exitCode := PrintError("could not build boost");
        return;
      }
      ok := Execute(Touch(a), host);
      if !ok {
        exitCode := PrintError("could not create " + a.builtFile);
        return;
      }
      Print("boost built");
      exitCode := 0;
      assert Compile(a, root, tc, host) == Outcome(exitCode, issued, stdout, fs);
    }

    /** perror(msg) followed by sys.exit(1). */
    method PrintError(msg: string) returns (exitCode: int)
      modifies this
      ensures Outcome(exitCode, issued, stdout, fs) == Fail(Trace(old(issued), old(stdout), old(fs)), msg)
    {
      Print("ERROR:" + msg);
      exitCode := 1;
    }
  }
}
