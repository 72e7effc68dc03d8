/** Model of the continuous-integration driver (script/continuous_integration.py).

    The driver runs external commands strictly in order, writes googletest-like
    banners to the console and to a transcript file, and stops at the first
    command that exits with a non-zero code. External processes are an oracle
    from a job (the toolchain in the environment plus the command string) to an
    exit code; their streamed output is a second oracle whose lines go to the
    console only. The directory listing of the examples folder is an input. */
module CiPipeline {

  import opened PosixPath

  // ---------------------------------------------------------------------------
  // Banners (test_strings)
  // ---------------------------------------------------------------------------

  const SeparatorTag: string := "[----------] "
  const RunTag: string := "[ RUN      ] "
  const OkTag: string := "[       OK ] "
  const StderrTag: string := "[  STDERR  ] "
  const FailedTag: string := "[  FAILED  ] "

  const FailureVerdict: string := "Integration Validation FAILURE"
  const SuccessVerdict: string := "Integration Validation Success"

  /** A value handed to `log`: Python's `log` writes it only when it is a `str`. */
  datatype LogValue = Str(s: string) | NoneValue

  /** What one call of `log` writes to each sink. */
  function Written(v: LogValue): (r: seq<string>)
    ensures v.Str? ==> r == [v.s]
    ensures v.NoneValue? ==> r == []
  {
    if v.Str? then [v.s] else []
  }

  /** What a sequence of `log` calls writes to each sink, in call order. */
  function WrittenAll(vs: seq<LogValue>): seq<string>
  {
    if vs == [] then [] else Written(vs[0]) + WrittenAll(vs[1..])
  }

  // ---------------------------------------------------------------------------
  // Decimal rendering of exit codes (Python's str on an int)
  // ---------------------------------------------------------------------------

  function DigitChar(d: nat): char
    requires d < 10
  {
    "0123456789"[d]
  }

  function NatToString(n: nat): string
    decreases n
  {
    if n < 10 then [DigitChar(n)] else NatToString(n / 10) + [DigitChar(n % 10)]
  }

  function IntToString(i: int): string
  {
    if i < 0 then "-" + NatToString(-i) else NatToString(i)
  }

  function DigitValue(c: char): int
  {
    c as int - '0' as int
  }

  /** Reads a string of decimal digits back (the inverse of NatToString). */
  function ParseDigits(s: string): int
    decreases |s|
  {
    if s == [] then 0 else ParseDigits(s[..|s| - 1]) * 10 + DigitValue(s[|s| - 1])
  }

  lemma {:induction false} NatToStringRoundTrip(n: nat)
    ensures ParseDigits(NatToString(n)) == n
    ensures forall k :: 0 <= k < |NatToString(n)| ==> '0' <= NatToString(n)[k] <= '9'
    decreases n
  {
    if n >= 10 {
      NatToStringRoundTrip(n / 10);
      var s := NatToString(n);
      assert s[..|s| - 1] == NatToString(n / 10);
    }
  }

  // ---------------------------------------------------------------------------
  // print_command_result: the log calls it makes
  // ---------------------------------------------------------------------------

  /** The sequence of `log` calls made by print_command_result(code, cmd, err). */
  function ResultLog(code: int, cmd: string, err: LogValue): seq<LogValue>
  {
    if code == 0 then [Str(OkTag + cmd + "\n")]
    else
      (if err != Str("") then [Str(SeparatorTag + "\n"), Str(StderrTag + "\n"), err] else [])
      + [Str(FailedTag + cmd + "\n"), Str("    ErrorCode: " + IntToString(code) + "\n")]
  }

  lemma WrittenAllCons(v: LogValue, rest: seq<LogValue>)
    ensures WrittenAll([v] + rest) == Written(v) + WrittenAll(rest)
  {
    assert ([v] + rest)[1..] == rest;
  }

  /** Success writes exactly one OK banner for the command. */
  lemma ResultLogSuccess(cmd: string, err: LogValue)
    ensures WrittenAll(ResultLog(0, cmd, err)) == [OkTag + cmd + "\n"]
  {
    WrittenAllCons(Str(OkTag + cmd + "\n"), []);
  }

  /** A failure with the error text `execute` really returns (None) writes the
      separator and STDERR banners, drops the None, then FAILED and the code. */
  lemma ResultLogFailureNone(code: int, cmd: string)
    requires code != 0
    ensures WrittenAll(ResultLog(code, cmd, NoneValue)) ==
      [SeparatorTag + "\n", StderrTag + "\n", FailedTag + cmd + "\n", "    ErrorCode: " + IntToString(code) + "\n"]
  {
    var s, t, f, e := Str(SeparatorTag + "\n"), Str(StderrTag + "\n"),
                      Str(FailedTag + cmd + "\n"), Str("    ErrorCode: " + IntToString(code) + "\n");
    assert ResultLog(code, cmd, NoneValue) == [s] + ([t] + ([NoneValue] + ([f] + ([e] + []))));
    WrittenAllCons(e, []);
    WrittenAllCons(f, [e] + []);
    WrittenAllCons(NoneValue, [f] + ([e] + []));
    WrittenAllCons(t, [NoneValue] + ([f] + ([e] + [])));
    WrittenAllCons(s, [t] + ([NoneValue] + ([f] + ([e] + []))));
  }

  /** A failure with an empty error string writes only FAILED and the code line. */
  lemma ResultLogFailureEmpty(code: int, cmd: string)
    requires code != 0
    ensures WrittenAll(ResultLog(code, cmd, Str(""))) ==
      [FailedTag + cmd + "\n", "    ErrorCode: " + IntToString(code) + "\n"]
  {
    var f, e := Str(FailedTag + cmd + "\n"), Str("    ErrorCode: " + IntToString(code) + "\n");
    assert ResultLog(code, cmd, Str("")) == [f] + ([e] + []);
    WrittenAllCons(e, []);
    WrittenAllCons(f, [e] + []);
  }

  /** A failure with non-empty error text writes five lines: both banners, the
      text itself, FAILED and the code line. */
  lemma ResultLogFailureText(code: int, cmd: string, text: string)
    requires code != 0 && text != ""
    ensures WrittenAll(ResultLog(code, cmd, Str(text))) ==
      [SeparatorTag + "\n", StderrTag + "\n", text, FailedTag + cmd + "\n", "    ErrorCode: " + IntToString(code) + "\n"]
  {
    var s, t, f, e := Str(SeparatorTag + "\n"), Str(StderrTag + "\n"),
                      Str(FailedTag + cmd + "\n"), Str("    ErrorCode: " + IntToString(code) + "\n");
    assert ResultLog(code, cmd, Str(text)) == [s] + ([t] + ([Str(text)] + ([f] + ([e] + []))));
    WrittenAllCons(e, []);
    WrittenAllCons(f, [e] + []);
    WrittenAllCons(Str(text), [f] + ([e] + []));
    WrittenAllCons(t, [Str(text)] + ([f] + ([e] + [])));
    WrittenAllCons(s, [t] + ([Str(text)] + ([f] + ([e] + []))));
  }

  // ---------------------------------------------------------------------------
  // Jobs, the command oracle and first-failure semantics
  // ---------------------------------------------------------------------------

  /** The compiler pair in CC/CXX when a command runs. */
  datatype Toolchain = Toolchain(cc: string, cxx: string)

  const Gcc: Toolchain := Toolchain("/usr/bin/gcc", "/usr/bin/g++")
  const Clang: Toolchain := Toolchain("/usr/bin/clang", "/usr/bin/clang++")

  /** One command execution: the command string under a toolchain. */
  datatype Job = Job(env: Toolchain, cmd: string)

  function Jobs(env: Toolchain, cmds: seq<string>): (js: seq<Job>)
    ensures |js| == |cmds|
  {
    if cmds == [] then [] else [Job(env, cmds[0])] + Jobs(env, cmds[1..])
  }

  /** The k-th job runs the k-th command under the given toolchain. */
  lemma {:induction false} JobsSpec(env: Toolchain, cmds: seq<string>)
    ensures forall k :: 0 <= k < |cmds| ==> Jobs(env, cmds)[k] == Job(env, cmds[k])
  {
    if cmds != [] {
      JobsSpec(env, cmds[1..]);
      forall k | 1 <= k < |cmds| ensures Jobs(env, cmds)[k] == Job(env, cmds[k]) {
        assert Jobs(env, cmds)[k] == Jobs(env, cmds[1..])[k - 1];
      }
    }
  }

  lemma JobsEnv(env: Toolchain, cmds: seq<string>)
    ensures forall j :: j in Jobs(env, cmds) ==> j.env == env
  {
    JobsSpec(env, cmds);
  }

  /** The jobs validateCommands runs: in order, up to and including the first
      one with a non-zero exit code. */
  function Ran(js: seq<Job>, code: Job -> int): seq<Job>
  {
    if js == [] then []
    else if code(js[0]) != 0 then [js[0]]
    else [js[0]] + Ran(js[1..], code)
  }

  predicate AllPass(js: seq<Job>, code: Job -> int)
  {
    forall k :: 0 <= k < |js| ==> code(js[k]) == 0
  }

  /** Ran is a prefix of the list; every job passing makes it the whole list,
      and otherwise it ends at the first failing job, all jobs before it passing. */
  lemma {:induction false} RanIsFirstFailurePrefix(js: seq<Job>, code: Job -> int)
    ensures |Ran(js, code)| <= |js| && Ran(js, code) == js[..|Ran(js, code)|]
    ensures AllPass(js, code) ==> Ran(js, code) == js
    ensures !AllPass(js, code) ==>
      var n := |Ran(js, code)|;
      n > 0 && code(js[n - 1]) != 0 && AllPass(js[..n - 1], code)
  {
    if js != [] {
      RanIsFirstFailurePrefix(js[1..], code);
      AllPassCons(js, code);
      if code(js[0]) == 0 {
        var r := Ran(js[1..], code);
        assert Ran(js, code) == [js[0]] + r;
        assert js[..|r| + 1] == [js[0]] + js[1..][..|r|];
        if !AllPass(js, code) {
          var n := |r|;
          assert js[..n + 1][..n] == [js[0]] + js[1..][..n - 1];
          AllPassCons(js[..n], code);
          assert js[..n][1..] == js[1..][..n - 1];
        }
      } else {
        assert js[..1][..0] == [];
      }
    }
  }

  lemma AllPassCons(js: seq<Job>, code: Job -> int)
    requires js != []
    ensures AllPass(js, code) <==> code(js[0]) == 0 && AllPass(js[1..], code)
  {
    if code(js[0]) == 0 && AllPass(js[1..], code) {
      forall k | 0 < k < |js| ensures code(js[k]) == 0 { assert js[k] == js[1..][k - 1]; }
    }
  }

  lemma AllPassAppend(a: seq<Job>, b: seq<Job>, code: Job -> int)
    ensures AllPass(a + b, code) <==> AllPass(a, code) && AllPass(b, code)
  {
    if AllPass(a + b, code) {
      forall k | 0 <= k < |b| ensures code(b[k]) == 0 { assert (a + b)[|a| + k] == b[k]; }
      forall k | 0 <= k < |a| ensures code(a[k]) == 0 { assert (a + b)[k] == a[k]; }
    }
  }

  /** Running a concatenated list stage by stage is the same as running it at once. */
  lemma {:induction false} RanAppend(a: seq<Job>, b: seq<Job>, code: Job -> int)
    ensures Ran(a + b, code) == if AllPass(a, code) then a + Ran(b, code) else Ran(a, code)
    ensures AllPass(a + b, code) <==> AllPass(a, code) && AllPass(b, code)
  {
    AllPassAppend(a, b, code);
    if a != [] {
      assert (a + b)[1..] == a[1..] + b;
      assert (a + b)[0] == a[0];
      RanAppend(a[1..], b, code);
      AllPassCons(a, code);
    } else {
      assert a + b == b;
    }
  }

  /** The transcript lines validate writes for one job. */
  function ValidateLines(j: Job, code: Job -> int): seq<string>
  {
    [RunTag + j.cmd + "\n"]
    + WrittenAll(ResultLog(code(j), j.cmd, if code(j) == 0 then Str("") else NoneValue))
  }

  /** The transcript lines validate writes for each job of a list, in order. */
  function TranscriptOf(js: seq<Job>, code: Job -> int): seq<string>
  {
    if js == [] then [] else TranscriptOf(js[..|js| - 1], code) + ValidateLines(js[|js| - 1], code)
  }

  /** What the console shows for one validated job: the RUN banner, the
      command's streamed output, then the result banners. */
  function ConsoleLines(j: Job, code: Job -> int, output: Job -> seq<string>): seq<string>
  {
    [RunTag + j.cmd + "\n"] + output(j)
    + WrittenAll(ResultLog(code(j), j.cmd, if code(j) == 0 then Str("") else NoneValue))
  }

  /** The console sees every job's lines in order, streamed output included. */
  function ConsoleOf(js: seq<Job>, code: Job -> int, output: Job -> seq<string>): seq<string>
  {
    if js == [] then [] else ConsoleOf(js[..|js| - 1], code, output) + ConsoleLines(js[|js| - 1], code, output)
  }

  /** A command that prints nothing. */
  function NoOutput(j: Job): seq<string>
  {
    []
  }

  /** The transcript is the console without the streamed command output. */
  lemma {:induction false} TranscriptIsConsoleWithoutOutput(js: seq<Job>, code: Job -> int)
    ensures TranscriptOf(js, code) == ConsoleOf(js, code, NoOutput)
  {
    if js != [] {
      var init, last := js[..|js| - 1], js[|js| - 1];
      TranscriptIsConsoleWithoutOutput(init, code);
      assert ConsoleLines(last, code, NoOutput) == ValidateLines(last, code) by {
        var run := [RunTag + last.cmd + "\n"];
        assert run + NoOutput(last) == run;
      }
      assert TranscriptOf(js, code) == TranscriptOf(init, code) + ValidateLines(last, code);
      assert ConsoleOf(js, code, NoOutput) == ConsoleOf(init, code, NoOutput) + ConsoleLines(last, code, NoOutput);
    }
  }

  // ---------------------------------------------------------------------------
  // Example discovery (the filter and sort in buildAndExecuteTests)
  // ---------------------------------------------------------------------------

  predicate IsPrefix(p: string, s: string)
  {
    |p| <= |s| && s[..|p|] == p
  }

  /** Python's `sub in s`. */
  predicate Contains(s: string, sub: string)
    decreases |s|
  {
    IsPrefix(sub, s) || (s != [] && Contains(s[1..], sub))
  }

  predicate IsExample(f: string)
  {
    Contains(f, "example_") && !Contains(f, "human_only")
  }

  /** Python's string order: code point by code point, a proper prefix first. */
  predicate LexLe(a: string, b: string)
    decreases |a|
  {
    if a == [] then true
    else if b == [] then false
    else if a[0] != b[0] then a[0] < b[0]
    else LexLe(a[1..], b[1..])
  }

  lemma {:induction false} LexLeTotal(a: string, b: string)
    ensures LexLe(a, b) || LexLe(b, a)
    decreases |a|
  {
    if a != [] && b != [] && a[0] == b[0] {
      LexLeTotal(a[1..], b[1..]);
    }
  }

  predicate Sorted(s: seq<string>)
  {
    forall k :: 0 < k < |s| ==> LexLe(s[k - 1], s[k])
  }

  function Insert(x: string, s: seq<string>): (r: seq<string>)
    ensures |r| == |s| + 1
    ensures multiset(r) == multiset(s) + multiset{x}
    ensures r[0] == x || (s != [] && r[0] == s[0])
  {
    if s == [] then [x]
    else if LexLe(x, s[0]) then [x] + s
    else
      assert s == [s[0]] + s[1..];
      [s[0]] + Insert(x, s[1..])
  }

  lemma {:induction false} InsertSorted(x: string, s: seq<string>)
    requires Sorted(s)
    ensures Sorted(Insert(x, s))
  {
    if s != [] && !LexLe(x, s[0]) {
      InsertSorted(x, s[1..]);
      LexLeTotal(x, s[0]);
      var r := Insert(x, s);
      var t := Insert(x, s[1..]);
      assert r == [s[0]] + t;
      forall k | 0 < k < |r| ensures LexLe(r[k - 1], r[k]) {
        if k == 1 {
          assert r[1] == t[0];
          if s[1..] != [] { assert t[0] == x || t[0] == s[1]; }
        } else {
          assert r[k - 1] == t[k - 2] && r[k] == t[k - 1];
        }
      }
    }
  }

  function SortStrings(s: seq<string>): (r: seq<string>)
    ensures multiset(r) == multiset(s)
  {
    if s == [] then []
    else
      assert s == [s[0]] + s[1..];
      Insert(s[0], SortStrings(s[1..]))
  }

  lemma {:induction false} SortStringsSorted(s: seq<string>)
    ensures Sorted(SortStrings(s))
  {
    if s != [] {
      SortStringsSorted(s[1..]);
      InsertSorted(s[0], SortStrings(s[1..]));
    }
  }

  /** The example paths in listing order, before sorting. */
  function ExamplePaths(exDir: string, files: seq<string>): seq<string>
  {
    if files == [] then []
    else (if IsExample(files[0]) then [PathJoin(exDir, files[0])] else []) + ExamplePaths(exDir, files[1..])
  }

  /** The example commands validated after `make mce_ex`. */
  function ExampleCommands(root: string, files: seq<string>): seq<string>
  {
    SortStrings(ExamplePaths(PathJoin(root, "ex"), files))
  }

  lemma {:induction false} ExamplePathsMembers(exDir: string, files: seq<string>, p: string)
    ensures p in ExamplePaths(exDir, files) <==>
      exists k :: 0 <= k < |files| && IsExample(files[k]) && p == PathJoin(exDir, files[k])
  {
    if files != [] {
      ExamplePathsMembers(exDir, files[1..], p);
      if exists k :: 0 <= k < |files| && IsExample(files[k]) && p == PathJoin(exDir, files[k]) {
        var k :| 0 <= k < |files| && IsExample(files[k]) && p == PathJoin(exDir, files[k]);
        if k > 0 { assert files[1..][k - 1] == files[k]; }
      }
      if p in ExamplePaths(exDir, files[1..]) {
        var k :| 0 <= k < |files[1..]| && IsExample(files[1..][k]) && p == PathJoin(exDir, files[1..][k]);
        assert files[k + 1] == files[1..][k];
      }
    }
  }

  /** Example discovery keeps exactly the listed names that contain "example_"
      and not "human_only", joined to the examples directory, each as often as
      it is listed, in lexicographic order. */
  lemma ExampleCommandsSpec(root: string, files: seq<string>)
    ensures Sorted(ExampleCommands(root, files))
    ensures multiset(ExampleCommands(root, files)) == multiset(ExamplePaths(PathJoin(root, "ex"), files))
    ensures forall p :: p in ExampleCommands(root, files) <==>
      exists k :: 0 <= k < |files| && IsExample(files[k]) && p == PathJoin(PathJoin(root, "ex"), files[k])
  {
    var paths := ExamplePaths(PathJoin(root, "ex"), files);
    SortStringsSorted(paths);
    forall p ensures p in ExampleCommands(root, files) <==>
      exists k :: 0 <= k < |files| && IsExample(files[k]) && p == PathJoin(PathJoin(root, "ex"), files[k])
    {
      assert p in ExampleCommands(root, files) <==> p in multiset(paths);
      ExamplePathsMembers(PathJoin(root, "ex"), files, p);
    }
  }

  // ---------------------------------------------------------------------------
  // The pipeline plan
  // ---------------------------------------------------------------------------

  function UnitCommands(root: string): seq<string>
  {
    ["cmake " + root, "make mce_ut", "./tst/mce_ut"]
  }

  function MinimalCommands(root: string): seq<string>
  {
    ["cmake " + root, "make mce_ut_minimal", "./tst/mce_ut_minimal"]
  }

  const ExampleBuildCommands: seq<string> := ["make clean", "make mce_ex"]

  /** Every job one toolchain's block plans, in order. */
  function ToolchainPlan(tc: Toolchain, root: string, listDir: Toolchain -> seq<string>): seq<Job>
  {
    Jobs(tc, UnitCommands(root)) + Jobs(tc, MinimalCommands(root)) + ExamplePlan(tc, root, listDir)
  }

  /** The example part of one toolchain's block: clean and build the
      examples, then run every discovered example. */
  function ExamplePlan(tc: Toolchain, root: string, listDir: Toolchain -> seq<string>): seq<Job>
  {
    Jobs(tc, ExampleBuildCommands) + Jobs(tc, ExampleCommands(root, listDir(tc)))
  }

  /** The whole gcc-then-clang matrix. */
  function Plan(root: string, listDir: Toolchain -> seq<string>): seq<Job>
  {
    ToolchainPlan(Gcc, root, listDir) + ToolchainPlan(Clang, root, listDir)
  }

  lemma ToolchainPlanEnv(tc: Toolchain, root: string, listDir: Toolchain -> seq<string>)
    ensures forall j :: j in ToolchainPlan(tc, root, listDir) ==> j.env == tc
  {
    JobsEnv(tc, UnitCommands(root));
    JobsEnv(tc, MinimalCommands(root));
    JobsEnv(tc, ExampleBuildCommands);
    JobsEnv(tc, ExampleCommands(root, listDir(tc)));
  }

  /** The clang block runs only when every gcc job passed. */
  lemma ClangOnlyAfterGccPasses(root: string, listDir: Toolchain -> seq<string>, code: Job -> int)
    ensures (exists j :: j in Ran(Plan(root, listDir), code) && j.env == Clang) ==>
      AllPass(ToolchainPlan(Gcc, root, listDir), code)
  {
    var g, c := ToolchainPlan(Gcc, root, listDir), ToolchainPlan(Clang, root, listDir);
    if !AllPass(g, code) {
      var r := Ran(g, code);
      assert Ran(Plan(root, listDir), code) == r by {
        assert Plan(root, listDir) == g + c;
        RanAppend(g, c, code);
      }
      forall j | j in r ensures j.env == Gcc {
        RanIsFirstFailurePrefix(g, code);
        ToolchainPlanEnv(Gcc, root, listDir);
        var k :| 0 <= k < |r| && r[k] == j;
        assert j == g[k];
      }
      assert Gcc.cc != Clang.cc;
    }
  }

  // ---------------------------------------------------------------------------
  // What a whole run writes
  // ---------------------------------------------------------------------------

  /** Where `log` output ends up: the transcript file gets only what `log`
      writes; the console also shows every command's streamed output. */
  datatype Sink = TranscriptFile | Console(output: Job -> seq<string>)

  /** The lines a sink receives for the validated jobs of a list. */
  function JobLines(js: seq<Job>, code: Job -> int, sink: Sink): seq<string>
  {
    match sink
    case TranscriptFile => TranscriptOf(js, code)
    case Console(output) => ConsoleOf(js, code, output)
  }

  /** The lines one stage writes: those of the jobs validateCommands runs. */
  function StageLines(js: seq<Job>, code: Job -> int, sink: Sink): seq<string>
  {
    JobLines(Ran(js, code), code, sink)
  }

  const UnitTitle: string := "build and run unit test code"
  const ExampleTitle: string := "build and run example code"

  /** The lines of print_command_separator, given the flag before the call. */
  function SeparatorLines(newline: bool, title: string): seq<string>
  {
    (if newline then ["\n"] else []) + [SeparatorTag + title + "\n"]
  }

  /** The console line announcing the transcript path. */
  function LogPathLine(logPath: string): string
  {
    "CONTINUOUS_INTEGRATION_LOG[" + logPath + "]\n"
  }

  function Verdict(ok: bool): string
  {
    if ok then SuccessVerdict else FailureVerdict
  }

  /** Both unit stages of a toolchain block pass, so its example separator is printed. */
  predicate UnitsPass(tc: Toolchain, root: string, code: Job -> int)
  {
    AllPass(Jobs(tc, UnitCommands(root)), code) && AllPass(Jobs(tc, MinimalCommands(root)), code)
  }

  /** Two gated stages: the first stage's lines and, when it passed, the
      second's. */
  function PairLines(first: seq<Job>, second: seq<Job>, code: Job -> int, sink: Sink): seq<string>
  {
    StageLines(first, code, sink) + (if AllPass(first, code) then StageLines(second, code, sink) else [])
  }

  /** The example part of a block: the separator, the example build stage
      and, when that passed, the examples stage. */
  function ExampleLines(tc: Toolchain, newline: bool, root: string, listDir: Toolchain -> seq<string>,
                        code: Job -> int, sink: Sink): seq<string>
  {
    SeparatorLines(newline, ExampleTitle)
    + PairLines(Jobs(tc, ExampleBuildCommands), Jobs(tc, ExampleCommands(root, listDir(tc))), code, sink)
  }

  /** One toolchain block: each stage's lines, cut after the first failed stage. */
  function BlockLines(tc: Toolchain, newline: bool, root: string, listDir: Toolchain -> seq<string>,
                      code: Job -> int, sink: Sink): seq<string>
  {
    PairLines(Jobs(tc, UnitCommands(root)), Jobs(tc, MinimalCommands(root)), code, sink)
    + (if UnitsPass(tc, root, code) then ExampleLines(tc, newline, root, listDir, code, sink) else [])
  }

  /** The gcc block, then the clang block when every gcc job passed. */
  function MatrixLines(newline: bool, root: string, listDir: Toolchain -> seq<string>,
                       code: Job -> int, sink: Sink): seq<string>
  {
    BlockLines(Gcc, newline, root, listDir, code, sink)
    + (if AllPass(ToolchainPlan(Gcc, root, listDir), code) then BlockLines(Clang, true, root, listDir, code, sink) else [])
  }

  /** Everything buildAndExecuteTests logs: the unit-test separator, the
      matrix, then one verdict. */
  function RunLines(newline: bool, root: string, listDir: Toolchain -> seq<string>,
                    code: Job -> int, sink: Sink): seq<string>
  {
    SeparatorLines(newline, UnitTitle) + MatrixLines(true, root, listDir, code, sink)
    + [Verdict(AllPass(Plan(root, listDir), code))]
  }

  lemma PairLinesCases(first: seq<Job>, second: seq<Job>, code: Job -> int, sink: Sink)
    ensures !AllPass(first, code) ==> PairLines(first, second, code, sink) == StageLines(first, code, sink)
    ensures AllPass(first, code) ==>
      PairLines(first, second, code, sink) == StageLines(first, code, sink) + StageLines(second, code, sink)
  {
    assert StageLines(first, code, sink) + [] == StageLines(first, code, sink);
  }

  /** A passing toolchain block passed both unit stages. */
  lemma PlanPassImpliesUnitsPass(tc: Toolchain, root: string, listDir: Toolchain -> seq<string>, code: Job -> int)
    ensures AllPass(ToolchainPlan(tc, root, listDir), code) ==> UnitsPass(tc, root, code)
  {
    var u, m := Jobs(tc, UnitCommands(root)), Jobs(tc, MinimalCommands(root));
    AllPassAppend(u + m, ExamplePlan(tc, root, listDir), code);
    AllPassAppend(u, m, code);
  }

  /** One stage's transcript is its console without the streamed output. */
  lemma StageTranscriptIsConsoleWithoutOutput(js: seq<Job>, code: Job -> int)
    ensures StageLines(js, code, TranscriptFile) == StageLines(js, code, Console(NoOutput))
  {
    TranscriptIsConsoleWithoutOutput(Ran(js, code), code);
  }

  lemma BlockTranscriptIsConsoleWithoutOutput(tc: Toolchain, newline: bool, root: string,
                                              listDir: Toolchain -> seq<string>, code: Job -> int)
    ensures BlockLines(tc, newline, root, listDir, code, TranscriptFile)
         == BlockLines(tc, newline, root, listDir, code, Console(NoOutput))
  {
    StageTranscriptIsConsoleWithoutOutput(Jobs(tc, UnitCommands(root)), code);
    StageTranscriptIsConsoleWithoutOutput(Jobs(tc, MinimalCommands(root)), code);
    StageTranscriptIsConsoleWithoutOutput(Jobs(tc, ExampleBuildCommands), code);
    StageTranscriptIsConsoleWithoutOutput(Jobs(tc, ExampleCommands(root, listDir(tc))), code);
  }

  /** The transcript of a whole run is its console, past the path line,
      without any command's streamed output. */
  lemma RunTranscriptIsConsoleWithoutOutput(newline: bool, root: string,
                                            listDir: Toolchain -> seq<string>, code: Job -> int)
    ensures RunLines(newline, root, listDir, code, TranscriptFile)
         == RunLines(newline, root, listDir, code, Console(NoOutput))
  {
    BlockTranscriptIsConsoleWithoutOutput(Gcc, true, root, listDir, code);
    BlockTranscriptIsConsoleWithoutOutput(Clang, true, root, listDir, code);
  }

  /** The jobs run by the two example stages, after the passing jobs
      `done`, are those a single run of the whole list makes. */
  lemma ExamplesRun(e0: seq<Job>, done: seq<Job>, b: seq<Job>, x: seq<Job>, executed: seq<Job>,
                    ok: bool, code: Job -> int)
    requires AllPass(done, code)
    requires ok == (AllPass(b, code) && AllPass(x, code))
    requires ok ==> executed == e0 + done + (b + x)
    requires !ok ==> executed == e0 + done + Ran(b + x + [], code) && !AllPass(b + x + [], code)
    ensures ok == AllPass(done + (b + x), code)
    ensures executed == e0 + Ran(done + (b + x), code)
  {
    assert b + x + [] == b + x;
    RanAppend(done, b + x, code);
    AllPassAppend(b, x, code);
    AppendAssoc(e0, done, Ran(b + x, code));
    if ok {
      RanIsFirstFailurePrefix(b + x, code);
    }
  }

  // ---------------------------------------------------------------------------
  // The driver's process state
  // ---------------------------------------------------------------------------

  /** The global state of one driver process: the console, the transcript file,
      the one-shot separator flag and the CC/CXX environment. `executed`
      records every job handed to `execute`, in order. */
  class Session {
    var console: seq<string>
    var transcript: seq<string>
    var newlineRequired: bool
    var env: Toolchain
    ghost var executed: seq<Job>

    /** Module import: the transcript is opened with 'w' (truncated) and the
        separator flag starts false. */
    constructor (initialEnv: Toolchain)
      ensures console == [] && transcript == [] && !newlineRequired
      ensures env == initialEnv && executed == []
    {
      console, transcript, newlineRequired := [], [], false;
      env, executed := initialEnv, [];
    }

    /** log(s): a str goes to stdout and to the transcript, anything else is dropped. */
    method Log(v: LogValue)
      modifies this`console, this`transcript
      ensures console == old(console) + Written(v)
      ensures transcript == old(transcript) + Written(v)
    {
      if v.Str? {
        console := console + [v.s];
        transcript := transcript + [v.s];
      }
    }

    method LogAll(vs: seq<LogValue>)
      modifies this`console, this`transcript
      ensures console == old(console) + WrittenAll(vs)
      ensures transcript == old(transcript) + WrittenAll(vs)
    {
      var i := 0;
      while i < |vs|
        invariant 0 <= i <= |vs|
        invariant console == old(console) + PrefixWritten(vs, i)
        invariant transcript == old(transcript) + PrefixWritten(vs, i)
      {
        PrefixWrittenStep(vs, i);
        Log(vs[i]);
        i := i + 1;
      }
      PrefixWrittenAll(vs);
    }

    /** execute(cmd): streams the command's output to the console only and
        returns its exit code; stderr is merged into stdout, so the error text
        is None. */
    method Execute(cmd: string, code: Job -> int, output: Job -> seq<string>) returns (rc: int, err: LogValue)
      modifies this`console, this`executed
      ensures rc == code(Job(env, cmd)) && err == NoneValue
      ensures console == old(console) + output(Job(env, cmd))
      ensures executed == old(executed) + [Job(env, cmd)]
    {
      executed := executed + [Job(env, cmd)];
      console := console + output(Job(env, cmd));
      rc, err := code(Job(env, cmd)), NoneValue;
    }

    /** print_command_separator: a blank line before every separator but the first. */
    method PrintCommandSeparator(title: string)
      modifies this`console, this`transcript, this`newlineRequired
      ensures newlineRequired
      ensures console == old(console) + SeparatorLines(old(newlineRequired), title)
      ensures transcript == old(transcript) + SeparatorLines(old(newlineRequired), title)
    {
      if !newlineRequired {
        newlineRequired := true;
      } else {
        Log(Str("\n"));
      }
      Log(Str(SeparatorTag + title + "\n"));
    }

    method PrintCommandPrepend(cmd: string)
      modifies this`console, this`transcript
      ensures console == old(console) + [RunTag + cmd + "\n"]
      ensures transcript == old(transcript) + [RunTag + cmd + "\n"]
    {
      Log(Str(RunTag + cmd + "\n"));
    }

    method PrintCommandResult(code: int, cmd: string, err: LogValue)
      modifies this`console, this`transcript
      ensures console == old(console) + WrittenAll(ResultLog(code, cmd, err))
      ensures transcript == old(transcript) + WrittenAll(ResultLog(code, cmd, err))
    {
      if code == 0 {
        Log(Str(OkTag + cmd + "\n"));
        assert WrittenAll(ResultLog(code, cmd, err)) == [OkTag + cmd + "\n"] by {
          ResultLogSuccess(cmd, err);
        }
      } else {
        LogAll(ResultLog(code, cmd, err));
      }
    }

    /** validate: RUN banner, execute, result banners; true iff exit code 0. */
    method Validate(cmd: string, code: Job -> int, output: Job -> seq<string>) returns (ok: bool)
      modifies this`console, this`transcript, this`executed
      ensures ok <==> code(Job(env, cmd)) == 0
      ensures executed == old(executed) + [Job(env, cmd)]
      ensures transcript == old(transcript) + ValidateLines(Job(env, cmd), code)
      ensures console == old(console) + ConsoleLines(Job(env, cmd), code, output)
    {
      ghost var j := Job(env, cmd);
      ghost var c0, t0 := console, transcript;
      ghost var run := [RunTag + cmd + "\n"];
      PrintCommandPrepend(cmd);
      var rc, err := Execute(cmd, code, output);
      ghost var res := WrittenAll(ResultLog(rc, cmd, if rc == 0 then Str("") else NoneValue));
      if rc == 0 {
        PrintCommandResult(rc, cmd, Str(""));
        ok := true;
      } else {
        PrintCommandResult(rc, cmd, err);
        ok := false;
      }
      assert transcript == t0 + ValidateLines(j, code) by {
        AppendAssoc(t0, run, res);
      }
      assert console == c0 + ConsoleLines(j, code, output) by {
        AppendAssoc(c0, run, output(j));
        AppendAssoc(c0 + run, output(j), res);
        AppendAssoc(c0, run + output(j), res);
      }
    }

    /** validateCommands: runs the commands in list order and stops at the
        first failure; true only if every command exited 0. */
    method ValidateCommands(cmds: seq<string>, code: Job -> int, output: Job -> seq<string>) returns (success: bool)
      modifies this`console, this`transcript, this`executed
      ensures success == AllPass(Jobs(env, cmds), code)
      ensures executed == old(executed) + Ran(Jobs(env, cmds), code)
      ensures transcript == old(transcript) + TranscriptOf(Ran(Jobs(env, cmds), code), code)
      ensures console == old(console) + ConsoleOf(Ran(Jobs(env, cmds), code), code, output)
    {
      ghost var js := Jobs(env, cmds);
      success := true;
      var i := 0;
      while i < |cmds|
        invariant 0 <= i <= |cmds|
        invariant AllPass(js[..i], code)
        invariant executed == old(executed) + js[..i]
        invariant transcript == old(transcript) + TranscriptOf(js[..i], code)
        invariant console == old(console) + ConsoleOf(js[..i], code, output)
      {
        assert js[i] == Job(env, cmds[i]) by { JobsSpec(env, cmds); }
        var ok := Validate(cmds[i], code, output);
        assert executed == old(executed) + js[..i + 1]
            && transcript == old(transcript) + TranscriptOf(js[..i + 1], code)
            && console == old(console) + ConsoleOf(js[..i + 1], code, output) by {
          OfStep(js, i, code, output);
          AppendAssoc(old(executed), js[..i], [js[i]]);
          AppendAssoc(old(console), ConsoleOf(js[..i], code, output), ConsoleLines(js[i], code, output));
          AppendAssoc(old(transcript), TranscriptOf(js[..i], code), ValidateLines(js[i], code));
        }
        if !ok {
          success := false;
          assert Ran(js, code) == js[..i + 1] && !AllPass(js, code) by {
            FirstFailureAt(js, i, code);
          }
          assert TranscriptOf(Ran(js, code), code) == TranscriptOf(js[..i + 1], code);
          return;
        }
        assert AllPass(js[..i + 1], code) by {
          OfStep(js, i, code, output);
        }
        i := i + 1;
      }
      assert js[..i] == js;
      assert Ran(js, code) == js && AllPass(js, code) by {
        RanIsFirstFailurePrefix(js, code);
      }
    }

    /** One gated stage of buildAndExecuteTests: validateCommands on the
        stage's commands, whose result verify_success then checks. With the
        jobs `done` of the earlier stages all passed, the jobs run so far are
        those a single run of the whole list `done`, this stage, `rest` makes
        up to this point. */
    method GatedStage(cmds: seq<string>, code: Job -> int, output: Job -> seq<string>,
                      ghost e0: seq<Job>, ghost done: seq<Job>, ghost rest: seq<Job>) returns (ok: bool)
      requires executed == e0 + done && AllPass(done, code)
      modifies this`console, this`transcript, this`executed
      ensures ok == AllPass(Jobs(env, cmds), code)
      ensures ok ==> executed == e0 + (done + Jobs(env, cmds)) && AllPass(done + Jobs(env, cmds), code)
      ensures !ok ==> executed == e0 + Ran(done + Jobs(env, cmds) + rest, code)
                      && !AllPass(done + Jobs(env, cmds) + rest, code)
      ensures transcript == old(transcript) + StageLines(Jobs(env, cmds), code, TranscriptFile)
      ensures console == old(console) + StageLines(Jobs(env, cmds), code, Console(output))
    {
      ghost var s := Jobs(env, cmds);
      ok := ValidateCommands(cmds, code, output);
      assert Ran(done + s, code) == done + Ran(s, code) && AllPass(done + s, code) == ok by {
        RanAppend(done, s, code);
      }
      assert executed == e0 + Ran(done + s, code) by {
        AppendAssoc(e0, done, Ran(s, code));
      }
      if ok {
        assert Ran(s, code) == s by { RanIsFirstFailurePrefix(s, code); }
      } else {
        assert Ran(done + s + rest, code) == Ran(done + s, code) && !AllPass(done + s + rest, code) by {
          RanAppend(done + s, rest, code);
        }
      }
    }

    /** The repeated per-toolchain block of buildAndExecuteTests: set CC/CXX,
        then the unit-test part and, when it passed, the example part. */
    method RunToolchain(tc: Toolchain, root: string, code: Job -> int, output: Job -> seq<string>,
                        listDir: Toolchain -> seq<string>) returns (ok: bool)
      modifies this
      ensures env == tc
      ensures ok == AllPass(ToolchainPlan(tc, root, listDir), code)
      ensures executed == old(executed) + Ran(ToolchainPlan(tc, root, listDir), code)
      ensures transcript == old(transcript) + BlockLines(tc, old(newlineRequired), root, listDir, code, TranscriptFile)
      ensures console == old(console) + BlockLines(tc, old(newlineRequired), root, listDir, code, Console(output))
      ensures newlineRequired == (old(newlineRequired) || UnitsPass(tc, root, code))
    {
      env := tc;
      ghost var e0, t0, c0, nl := executed, transcript, console, newlineRequired;
      ghost var u, m := Jobs(tc, UnitCommands(root)), Jobs(tc, MinimalCommands(root));
      ghost var ut, uc := PairLines(u, m, code, TranscriptFile), PairLines(u, m, code, Console(output));
      ghost var rest := ExamplePlan(tc, root, listDir);
      assert u + m + rest == ToolchainPlan(tc, root, listDir);
      ok := GatedPair(UnitCommands(root), MinimalCommands(root), code, output, rest);
      if !ok {
        assert ut + [] == ut && uc + [] == uc;
        return;
      }
      assert AllPass(u + m, code) by {
        AllPassAppend(u, m, code);
      }
      ok := RunExamples(root, code, output, listDir, e0, u + m);
      ghost var et, ec := ExampleLines(tc, nl, root, listDir, code, TranscriptFile),
                          ExampleLines(tc, nl, root, listDir, code, Console(output));
      assert transcript == t0 + (ut + et) && console == c0 + (uc + ec) by {
        AppendAssoc(t0, ut, et);
        AppendAssoc(c0, uc, ec);
      }
    }

    /** Two gated stages, the second run only when the first passed. With
        the jobs `rest` to follow, the jobs run are those a single run of the
        whole list makes up to here. */
    method GatedPair(first: seq<string>, second: seq<string>, code: Job -> int, output: Job -> seq<string>,
                     ghost rest: seq<Job>) returns (ok: bool)
      modifies this`console, this`transcript, this`executed
      ensures ok == (AllPass(Jobs(env, first), code) && AllPass(Jobs(env, second), code))
      ensures ok ==> executed == old(executed) + (Jobs(env, first) + Jobs(env, second))
      ensures !ok ==> executed == old(executed) + Ran(Jobs(env, first) + Jobs(env, second) + rest, code)
                      && !AllPass(Jobs(env, first) + Jobs(env, second) + rest, code)
      ensures transcript == old(transcript) + PairLines(Jobs(env, first), Jobs(env, second), code, TranscriptFile)
      ensures console == old(console) + PairLines(Jobs(env, first), Jobs(env, second), code, Console(output))
    {
      ghost var e0, t0, c0 := executed, transcript, console;
      ghost var a, b := Jobs(env, first), Jobs(env, second);
      ghost var ta, tb := StageLines(a, code, TranscriptFile), StageLines(b, code, TranscriptFile);
      ghost var ca, cb := StageLines(a, code, Console(output)), StageLines(b, code, Console(output));
      PairLinesCases(a, b, code, TranscriptFile);
      PairLinesCases(a, b, code, Console(output));
      assert [] + a + (b + rest) == a + b + rest by {
        AppendAssoc(a, b, rest);
      }
      assert executed == e0 + [];
      ok := GatedStage(first, code, output, e0, [], b + rest);
      if !ok {
        return;
      }
      assert executed == e0 + a && AllPass(a, code) by { assert [] + a == a; }
      ok := GatedStage(second, code, output, e0, a, rest);
      assert transcript == t0 + (ta + tb) && console == c0 + (ca + cb) by {
        AppendAssoc(t0, ta, tb);
        AppendAssoc(c0, ca, cb);
      }
    }

    /** The example part of the block: a separator, the example build stage,
        then the examples found in the listing, sorted; the examples stage is
        reached only when the build stage passed. */
    method RunExamples(root: string, code: Job -> int, output: Job -> seq<string>,
                       listDir: Toolchain -> seq<string>, ghost e0: seq<Job>, ghost done: seq<Job>) returns (ok: bool)
      requires executed == e0 + done && AllPass(done, code)
      modifies this`console, this`transcript, this`executed, this`newlineRequired
      ensures ok == AllPass(done + ExamplePlan(env, root, listDir), code)
      ensures executed == e0 + Ran(done + ExamplePlan(env, root, listDir), code)
      ensures transcript == old(transcript) + ExampleLines(env, old(newlineRequired), root, listDir, code, TranscriptFile)
      ensures console == old(console) + ExampleLines(env, old(newlineRequired), root, listDir, code, Console(output))
      ensures newlineRequired
    {
      ghost var b, x := Jobs(env, ExampleBuildCommands), Jobs(env, ExampleCommands(root, listDir(env)));
      ghost var plan := done + ExamplePlan(env, root, listDir);
      ghost var t0, c0, nl := transcript, console, newlineRequired;
      ghost var sep := SeparatorLines(nl, ExampleTitle);
      ghost var tp, cp := PairLines(b, x, code, TranscriptFile), PairLines(b, x, code, Console(output));
      PrintCommandSeparator(ExampleTitle);
      ok := GatedPair(ExampleBuildCommands, ExampleCommands(root, listDir(env)), code, output, []);
      assert transcript == t0 + (sep + tp) && console == c0 + (sep + cp) by {
        AppendAssoc(t0, sep, tp);
        AppendAssoc(c0, sep, cp);
      }
      ExamplesRun(e0, done, b, x, executed, ok, code);
    }

    /** The gcc block then the clang block, the clang block reached only when
        every gcc stage passed (each verify_success exits otherwise). */
    method RunMatrix(root: string, code: Job -> int, output: Job -> seq<string>,
                     listDir: Toolchain -> seq<string>) returns (ok: bool)
      modifies this
      ensures ok == AllPass(Plan(root, listDir), code)
      ensures executed == old(executed) + Ran(Plan(root, listDir), code)
      ensures transcript == old(transcript) + MatrixLines(old(newlineRequired), root, listDir, code, TranscriptFile)
      ensures console == old(console) + MatrixLines(old(newlineRequired), root, listDir, code, Console(output))
      ensures newlineRequired == (old(newlineRequired) || UnitsPass(Gcc, root, code))
      ensures ok ==> env == Clang
    {
      ghost var t0, c0, e0 := transcript, console, executed;
      ghost var g, c := ToolchainPlan(Gcc, root, listDir), ToolchainPlan(Clang, root, listDir);
      ghost var nl := newlineRequired;
      ok := RunToolchain(Gcc, root, code, output, listDir);
      if !ok {
        assert executed == e0 + Ran(Plan(root, listDir), code) && !AllPass(Plan(root, listDir), code) by {
          RanAppend(g, c, code);
        }
        assert BlockLines(Gcc, nl, root, listDir, code, TranscriptFile) + [] == BlockLines(Gcc, nl, root, listDir, code, TranscriptFile);
        assert BlockLines(Gcc, nl, root, listDir, code, Console(output)) + [] == BlockLines(Gcc, nl, root, listDir, code, Console(output));
        return;
      }
      assert executed == e0 + g by { RanIsFirstFailurePrefix(g, code); }
      assert newlineRequired by { PlanPassImpliesUnitsPass(Gcc, root, listDir, code); }
      ghost var t1, c1 := transcript, console;
      ok := RunToolchain(Clang, root, code, output, listDir);
      assert executed == e0 + Ran(Plan(root, listDir), code) && ok == AllPass(Plan(root, listDir), code) by {
        RanAppend(g, c, code);
        AppendAssoc(e0, g, Ran(c, code));
      }
      assert transcript == t0 + MatrixLines(nl, root, listDir, code, TranscriptFile) by {
        AppendAssoc(t0, BlockLines(Gcc, nl, root, listDir, code, TranscriptFile),
                    BlockLines(Clang, true, root, listDir, code, TranscriptFile));
      }
      assert console == c0 + MatrixLines(nl, root, listDir, code, Console(output)) by {
        AppendAssoc(c0, BlockLines(Gcc, nl, root, listDir, code, Console(output)),
                    BlockLines(Clang, true, root, listDir, code, Console(output)));
      }
    }

    /** buildAndExecuteTests: announce the transcript path, truncate the
        transcript, run the gcc block then the clang block, and exit 1 at the
        first failed stage (verify_success) or 0 after both blocks pass,
        logging the verdict last. */
    method BuildAndExecuteTests(root: string, logPath: string, code: Job -> int, output: Job -> seq<string>,
                                listDir: Toolchain -> seq<string>) returns (exitCode: int)
      modifies this
      ensures exitCode == (if AllPass(Plan(root, listDir), code) then 0 else 1)
      ensures executed == old(executed) + Ran(Plan(root, listDir), code)
      ensures transcript == RunLines(old(newlineRequired), root, listDir, code, TranscriptFile)
      ensures console == old(console) + [LogPathLine(logPath)]
                         + RunLines(old(newlineRequired), root, listDir, code, Console(output))
      ensures newlineRequired
      ensures transcript[|transcript| - 1] == Verdict(exitCode == 0)
      ensures exitCode == 0 ==> env == Clang
    {
      ghost var c0, nl := console, newlineRequired;
      ghost var sep := SeparatorLines(nl, UnitTitle);
      ghost var mt, mc := MatrixLines(true, root, listDir, code, TranscriptFile),
                          MatrixLines(true, root, listDir, code, Console(output));
      ghost var pass := AllPass(Plan(root, listDir), code);
      Start(logPath);
      var ok := RunMatrix(root, code, output, listDir);
      assert transcript == sep + mt && console == c0 + [LogPathLine(logPath)] + sep + mc;
      exitCode := Finish(ok);
      assert transcript == sep + mt + [Verdict(pass)];
      assert console == c0 + [LogPathLine(logPath)] + (sep + mc + [Verdict(pass)]) by {
        AppendAssoc(c0 + [LogPathLine(logPath)], sep + mc, [Verdict(pass)]);
        AppendAssoc(c0 + [LogPathLine(logPath)], sep, mc);
      }
    }

    /** The start of buildAndExecuteTests: announce the transcript path on the
        console, truncate the transcript and open the unit-test section. */
    method Start(logPath: string)
      modifies this`console, this`transcript, this`newlineRequired
      ensures newlineRequired
      ensures transcript == SeparatorLines(old(newlineRequired), UnitTitle)
      ensures console == old(console) + [LogPathLine(logPath)] + SeparatorLines(old(newlineRequired), UnitTitle)
    {
      console := console + [LogPathLine(logPath)];
      transcript := [];
      PrintCommandSeparator(UnitTitle);
    }

    /** The end of buildAndExecuteTests: verify_success logs the failure
        verdict and exits 1; after both blocks pass the success verdict is
        logged and the script exits 0. */
    method Finish(ok: bool) returns (exitCode: int)
      modifies this`console, this`transcript
      ensures exitCode == if ok then 0 else 1
      ensures transcript == old(transcript) + [Verdict(ok)]
      ensures console == old(console) + [Verdict(ok)]
    {
      Log(Str(Verdict(ok)));
      exitCode := if ok then 0 else 1;
    }
  }

  /** Validating one more job extends both logs by that job's lines, and the
      executed list by the job; a passing job keeps the prefix all-passing. */
  lemma OfStep(js: seq<Job>, i: nat, code: Job -> int, output: Job -> seq<string>)
    requires i < |js|
    ensures js[..i + 1] == js[..i] + [js[i]]
    ensures TranscriptOf(js[..i + 1], code) == TranscriptOf(js[..i], code) + ValidateLines(js[i], code)
    ensures ConsoleOf(js[..i + 1], code, output) == ConsoleOf(js[..i], code, output) + ConsoleLines(js[i], code, output)
    ensures AllPass(js[..i + 1], code) <==> AllPass(js[..i], code) && code(js[i]) == 0
  {
    assert js[..i + 1][..i] == js[..i];
    AllPassAppend(js[..i], [js[i]], code);
    assert js[..i] + [js[i]] == js[..i + 1];
  }

  lemma AppendAssoc<T>(a: seq<T>, b: seq<T>, c: seq<T>)
    ensures (a + b) + c == a + (b + c)
  {
  }

  /** A failure at index i after i passing jobs ends the run at i. */
  lemma FirstFailureAt(js: seq<Job>, i: nat, code: Job -> int)
    requires i < |js| && AllPass(js[..i], code) && code(js[i]) != 0
    ensures Ran(js, code) == js[..i + 1] && !AllPass(js, code)
  {
    RanAppend(js[..i], js[i..], code);
    assert js[..i] + js[i..] == js;
    assert js[i..][0] == js[i];
    assert js[..i] + [js[i]] == js[..i + 1];
  }

  // Helpers for LogAll: what the first i log calls of a list write.

  function PrefixWritten(vs: seq<LogValue>, i: nat): seq<string>
    requires i <= |vs|
  {
    if i == 0 then [] else PrefixWritten(vs, i - 1) + Written(vs[i - 1])
  }

  lemma PrefixWrittenStep(vs: seq<LogValue>, i: nat)
    requires i < |vs|
    ensures PrefixWritten(vs, i + 1) == PrefixWritten(vs, i) + Written(vs[i])
  {
  }

  lemma {:induction false} PrefixWrittenAll(vs: seq<LogValue>)
    ensures PrefixWritten(vs, |vs|) == WrittenAll(vs)
    decreases |vs|
  {
    if vs != [] {
      PrefixWrittenAll(vs[1..]);
      PrefixWrittenShift(vs, |vs|);
    }
  }

  lemma {:induction false} PrefixWrittenShift(vs: seq<LogValue>, i: nat)
    requires 0 < i <= |vs|
    ensures PrefixWritten(vs, i) == Written(vs[0]) + PrefixWritten(vs[1..], i - 1)
    decreases i
  {
    if i > 1 {
      PrefixWrittenShift(vs, i - 1);
      assert vs[1..][i - 2] == vs[i - 1];
    }
  }
}
