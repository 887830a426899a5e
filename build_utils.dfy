/**
 * The build helpers: the C++-standard rewrite of the Conan profile done by
 * `conan_profile_ensure`, and the four Conan command lines of
 * `conan_install_package` together with the order they run in. Commands
 * run through a `CommandRunner` that records what was started; which
 * commands exit non-zero and what they print are its parameters.
 */
module BuildUtils {
  import opened Optional
  import opened Text

  /** An argument vector, as handed to `subprocess.run`. */
  type Command = seq<string>

  // ---------------------------------------------------------------------
  // conan_profile_ensure: detection
  // ---------------------------------------------------------------------

  const ListProfiles: Command := ["conan", "profile", "list", "--path"]
  const DetectProfile: Command := ["conan", "profile", "detect", "--force"]
  const DefaultProfile: string := "default"

  /** `platform.system()` and `platform.machine()`. */
  datatype Platform = Platform(system: string, machine: string)

  predicate IsAppleSilicon(host: Platform)
  {
    host.system == "Darwin" && host.machine == "arm64"
  }

  /** The detection command; on Apple silicon it runs under `arch -arm64`. */
  function DetectCommand(host: Platform): (cmd: Command)
  {
    (if IsAppleSilicon(host) then ["arch", "-arm64"] else []) + DetectProfile
  }

  /** Detection always ends in `conan profile detect --force`, and is prefixed with `arch -arm64` exactly on Apple silicon. */
  lemma DetectCommandShape(host: Platform)
    ensures var cmd := DetectCommand(host);
      && |cmd| >= |DetectProfile|
      && cmd[|cmd| - |DetectProfile|..] == DetectProfile
      && (cmd[..2] == ["arch", "-arm64"] <==> IsAppleSilicon(host))
  {
    var cmd := DetectCommand(host);
    if !IsAppleSilicon(host) {
      assert cmd[0] == "conan";
    }
  }

  /** `stdout.strip().splitlines()` of `conan profile list`. */
  function ProfileNames(listing: string): seq<string>
  {
    SplitLines(Strip(listing))
  }

  /** `"default" in profiles`: a whole line, not a substring of one. */
  predicate HasDefault(listing: string)
  {
    DefaultProfile in ProfileNames(listing)
  }

  // ---------------------------------------------------------------------
  // conan_profile_ensure: the cppstd rewrite
  // ---------------------------------------------------------------------

  const CppStdKey: string := "compiler.cppstd"
  /** `cpp_std` when the caller passes none. */
  const DefaultCppStd: string := "14"

  function CppStdSetting(cppStd: string): string
  {
    CppStdKey + "=" + cppStd
  }

  /** One line of the loop: a line starting with `compiler.cppstd` is replaced, any other is kept. */
  function RewriteCppStdLine(line: string, cppStd: string): string
  {
    if StartsWith(line, CppStdKey) then CppStdSetting(cppStd) else line
  }

  /** `new_lines` after the loop over `lines` (built from the back, as the loop extends it). */
  function CppStdRewritten(lines: seq<string>, cppStd: string): seq<string>
    decreases |lines|
  {
    if lines == [] then []
    else CppStdRewritten(lines[..|lines| - 1], cppStd) + [RewriteCppStdLine(lines[|lines| - 1], cppStd)]
  }

  /**
   * Line for line: the same number of lines, each line that starts with
   * `compiler.cppstd` replaced by `compiler.cppstd=<cppStd>` and every other
   * line kept in its place.
   */
  lemma {:induction false} CppStdRewrittenLines(lines: seq<string>, cppStd: string)
    ensures |CppStdRewritten(lines, cppStd)| == |lines|
    ensures forall i :: 0 <= i < |lines| ==>
      CppStdRewritten(lines, cppStd)[i] == if StartsWith(lines[i], CppStdKey) then CppStdKey + "=" + cppStd else lines[i]
    decreases |lines|
  {
    if lines != [] {
      var init := lines[..|lines| - 1];
      CppStdRewrittenLines(init, cppStd);
      assert forall i :: 0 <= i < |init| ==> init[i] == lines[i];
    }
  }

  lemma SettingHasKey(cppStd: string)
    ensures StartsWith(CppStdSetting(cppStd), CppStdKey)
  {
    assert CppStdSetting(cppStd)[..|CppStdKey|] == CppStdKey;
  }

  /** Afterwards the profile sets the standard to one value: every line starting with `compiler.cppstd` is the new setting. */
  lemma CppStdSingleValue(lines: seq<string>, cppStd: string)
    ensures var out := CppStdRewritten(lines, cppStd);
      forall i :: 0 <= i < |out| && StartsWith(out[i], CppStdKey) ==> out[i] == CppStdSetting(cppStd)
  {
    CppStdRewrittenLines(lines, cppStd);
  }

  /** Rewriting a rewritten profile with the same standard changes nothing. */
  lemma CppStdRewriteIdempotent(lines: seq<string>, cppStd: string)
    ensures CppStdRewritten(CppStdRewritten(lines, cppStd), cppStd) == CppStdRewritten(lines, cppStd)
  {
    var once := CppStdRewritten(lines, cppStd);
    CppStdRewrittenLines(lines, cppStd);
    CppStdRewrittenLines(once, cppStd);
    SettingHasKey(cppStd);
  }

  /** The loop of `conan_profile_ensure` that builds `new_lines`. */
  method RewriteCppStd(lines: seq<string>, cppStd: string) returns (newLines: seq<string>)
    ensures newLines == CppStdRewritten(lines, cppStd)
  {
    newLines := [];
    var i := 0;
    while i < |lines|
      invariant 0 <= i <= |lines|
      invariant newLines == CppStdRewritten(lines[..i], cppStd)
    {
      assert lines[..i + 1][..i] == lines[..i];
      if StartsWith(lines[i], CppStdKey) {
        newLines := newLines + [CppStdKey + "=" + cppStd];
      } else {
        newLines := newLines + [lines[i]];
      }
      i := i + 1;
    }
    assert lines[..i] == lines;
  }

  /** The text written to `default_oiio_build`: the profile split into lines, rewritten and joined with "\n". */
  function ProfileText(profile: string, cppStd: string): string
  {
    JoinLines(CppStdRewritten(SplitLines(profile), cppStd))
  }

  /** A profile whose last line is not empty (`"a\n\n"` has an empty last line). */
  predicate EndsInText(profile: string)
  {
    var lines := SplitLines(profile);
    lines == [] || lines[|lines| - 1] != []
  }

  /**
   * The written profile reads back as the rewritten lines, provided the new
   * standard holds no line boundary and the profile's last line is not empty
   * (`"\n".join` then `splitlines` loses a final empty line).
   */
  lemma ProfileTextLines(profile: string, cppStd: string)
    requires NoLineBreak(cppStd) && EndsInText(profile)
    ensures SplitLines(ProfileText(profile, cppStd)) == CppStdRewritten(SplitLines(profile), cppStd)
    ensures EndsInText(ProfileText(profile, cppStd))
  {
    var lines := SplitLines(profile);
    var out := CppStdRewritten(lines, cppStd);
    CppStdRewrittenLines(lines, cppStd);
    assert NoLineBreak(CppStdSetting(cppStd)) by {
      var setting := CppStdSetting(cppStd);
      forall i | 0 <= i < |setting| ensures !IsLineBreak(setting[i]) {
        if i >= |CppStdKey| + 1 {
          assert setting[i] == cppStd[i - |CppStdKey| - 1];
        }
      }
    }
    assert forall i :: 0 <= i < |out| ==> NoLineBreak(out[i]);
    SplitJoinLines(out);
  }

  /** Running the rewrite on its own output, with the same standard, writes the same text. */
  lemma ProfileTextIdempotent(profile: string, cppStd: string)
    requires NoLineBreak(cppStd) && EndsInText(profile)
    ensures ProfileText(ProfileText(profile, cppStd), cppStd) == ProfileText(profile, cppStd)
  {
    ProfileTextLines(profile, cppStd);
    CppStdRewriteIdempotent(SplitLines(profile), cppStd);
  }

  // ---------------------------------------------------------------------
  // conan_install_package: the command lines
  // ---------------------------------------------------------------------

  const BuildPrefix: string := "--build="
  /** `to_build` when the caller passes None. */
  const DefaultBuild: seq<string> := ["missing"]

  function BuildTargets(toBuild: Option<seq<string>>): seq<string>
  {
    match toBuild
    case None => DefaultBuild
    case Some(targets) => targets
  }

  /** `build_arg_list`: one `--build=<b>` per entry, in order. */
  function BuildFlags(targets: seq<string>): seq<string>
    decreases |targets|
  {
    if targets == [] then []
    else BuildFlags(targets[..|targets| - 1]) + [BuildPrefix + targets[|targets| - 1]]
  }

  /** The loop of `conan_install_package` that builds `build_arg_list`. */
  method ExpandBuildFlags(targets: seq<string>) returns (flags: seq<string>)
    ensures flags == BuildFlags(targets)
  {
    flags := [];
    var i := 0;
    while i < |targets|
      invariant 0 <= i <= |targets|
      invariant flags == BuildFlags(targets[..i])
    {
      assert targets[..i + 1][..i] == targets[..i];
      flags := flags + [BuildPrefix + targets[i]];
      i := i + 1;
    }
    assert targets[..i] == targets;
  }

  /** `conan <verb> <root> --version <version> --profile <profile>`. */
  function ProfiledCommand(verb: string, root: string, version: string, profile: string): Command
  {
    ["conan", verb, root, "--version", version, "--profile", profile]
  }

  /** `source_cmd`: no profile. */
  function SourceCommand(root: string, version: string): Command
  {
    ["conan", "source", root, "--version", version]
  }

  function InstallCommand(root: string, version: string, profile: string, targets: seq<string>): Command
  {
    ProfiledCommand("install", root, version, profile) + BuildFlags(targets)
  }

  function BuildCommand(root: string, version: string, profile: string): Command
  {
    ProfiledCommand("build", root, version, profile)
  }

  function ExportCommand(root: string, version: string, profile: string): Command
  {
    ProfiledCommand("export-pkg", root, version, profile)
  }

  // ---- reading a command line back ----

  /** What a Conan command line asks for. */
  datatype Invocation = Invocation(verb: string, root: string, version: string, profile: Option<string>, builds: seq<string>)

  /** The values of a run of `--build=` flags, or None when some argument is not one. */
  function BuildValues(flags: seq<string>): Option<seq<string>>
    decreases |flags|
  {
    if flags == [] then Some([])
    else
      var last := flags[|flags| - 1];
      var init := BuildValues(flags[..|flags| - 1]);
      if init.Some? && StartsWith(last, BuildPrefix) then Some(init.value + [last[|BuildPrefix|..]]) else None
  }

  /** Reads `conan <verb> <root> --version <v> [--profile <p> [--build=<b>]...]` by position. */
  function ParseCommand(cmd: Command): Option<Invocation>
  {
    if |cmd| < 5 || cmd[0] != "conan" || cmd[3] != "--version" then None
    else if |cmd| == 5 then Some(Invocation(cmd[1], cmd[2], cmd[4], None, []))
    else if |cmd| >= 7 && cmd[5] == "--profile" then
      var builds := BuildValues(cmd[7..]);
      if builds.Some? then Some(Invocation(cmd[1], cmd[2], cmd[4], Some(cmd[6]), builds.value)) else None
    else None
  }

  /** The `--build=` flags give back the entries of `to_build`, in order. */
  lemma {:induction false} BuildFlagsRoundTrip(targets: seq<string>)
    ensures |BuildFlags(targets)| == |targets|
    ensures BuildValues(BuildFlags(targets)) == Some(targets)
    decreases |targets|
  {
    if targets != [] {
      var init := targets[..|targets| - 1];
      var flags := BuildFlags(targets);
      BuildFlagsRoundTrip(init);
      assert flags[..|flags| - 1] == BuildFlags(init);
      var last := BuildPrefix + targets[|targets| - 1];
      assert StartsWith(last, BuildPrefix) && last[|BuildPrefix|..] == targets[|targets| - 1];
      assert init + [targets[|targets| - 1]] == targets;
    }
  }

  /**
   * Each command carries what it is given: the source command root and
   * version and no profile; the install command also the profile and every
   * `to_build` entry; the build and export commands the profile and no
   * `--build=` flag.
   */
  lemma CommandsCarryArguments(root: string, version: string, profile: string, targets: seq<string>)
    ensures ParseCommand(SourceCommand(root, version)) == Some(Invocation("source", root, version, None, []))
    ensures ParseCommand(InstallCommand(root, version, profile, targets))
         == Some(Invocation("install", root, version, Some(profile), targets))
    ensures ParseCommand(BuildCommand(root, version, profile)) == Some(Invocation("build", root, version, Some(profile), []))
    ensures ParseCommand(ExportCommand(root, version, profile))
         == Some(Invocation("export-pkg", root, version, Some(profile), []))
  {
    var install := InstallCommand(root, version, profile, targets);
    BuildFlagsRoundTrip(targets);
    assert install[7..] == BuildFlags(targets);
    assert BuildCommand(root, version, profile)[7..] == [];
    assert ExportCommand(root, version, profile)[7..] == [];
  }

  // ---------------------------------------------------------------------
  // conan_install_package: the run order
  // ---------------------------------------------------------------------

  /** Commands in run order: the first only when `first`, the middle two always, the last only when `final`. */
  function InOrder(first: bool, firstCmd: Command, second: Command, third: Command, final: bool, finalCmd: Command): seq<Command>
  {
    (if first then [firstCmd] else []) + [second, third] + (if final then [finalCmd] else [])
  }

  /** The commands in the order the function starts them: source if asked, install, build, export if asked. */
  function InstallPlan(root: string, version: string, profile: string, source: bool, exportPackage: bool, toBuild: Option<seq<string>>): seq<Command>
  {
    InOrder(source, SourceCommand(root, version),
            InstallCommand(root, version, profile, BuildTargets(toBuild)), BuildCommand(root, version, profile),
            exportPackage, ExportCommand(root, version, profile))
  }

  /** The Conan verb of each command of a plan. */
  function Verbs(plan: seq<Command>): (verbs: seq<string>)
    ensures |verbs| == |plan|
  {
    seq(|plan|, i requires 0 <= i < |plan| => if |plan[i]| > 1 then plan[i][1] else "")
  }

  /** The plan runs `source` (when asked), `install`, `build`, `export-pkg` (when asked), in that order. */
  lemma PlanOrder(root: string, version: string, profile: string, source: bool, exportPackage: bool, toBuild: Option<seq<string>>)
    ensures Verbs(InstallPlan(root, version, profile, source, exportPackage, toBuild))
         == (if source then ["source"] else []) + ["install", "build"] + (if exportPackage then ["export-pkg"] else [])
  {
    var plan := InstallPlan(root, version, profile, source, exportPackage, toBuild);
    var expected := (if source then ["source"] else []) + ["install", "build"] + (if exportPackage then ["export-pkg"] else []);
    var offset := if source then 1 else 0;
    assert |plan| == |expected|;
    forall k | 0 <= k < |plan| ensures Verbs(plan)[k] == expected[k] {
      if k == offset {
        assert plan[k][1] == "install";
      }
    }
  }

  /** With no `to_build`, the install command asks for `--build=missing`. */
  lemma DefaultBuildsMissing(root: string, version: string, profile: string)
    ensures InstallCommand(root, version, profile, BuildTargets(None)) == ProfiledCommand("install", root, version, profile) + ["--build=missing"]
  {
    assert DefaultBuild[..0] == [];
    assert BuildFlags(DefaultBuild) == BuildFlags([]) + [BuildPrefix + "missing"];
    assert BuildPrefix + "missing" == "--build=missing";
  }

  /** The commands `subprocess.run(..., check=True)` starts: all of them, up to and including the first that fails. */
  function Executed(plan: seq<Command>, failing: set<Command>): seq<Command>
    decreases |plan|
  {
    if plan == [] then []
    else if plan[0] in failing then [plan[0]]
    else [plan[0]] + Executed(plan[1..], failing)
  }

  predicate AllSucceed(plan: seq<Command>, failing: set<Command>)
  {
    forall i :: 0 <= i < |plan| ==> plan[i] !in failing
  }

  /** Running a plan after `before` is running its first command, then the rest unless the first failed. */
  lemma RunFirst(before: seq<Command>, c: Command, rest: seq<Command>, failing: set<Command>)
    ensures before + Executed([c] + rest, failing)
         == if c in failing then before + [c] else (before + [c]) + Executed(rest, failing)
    ensures AllSucceed([c] + rest, failing) <==> c !in failing && AllSucceed(rest, failing)
  {
    assert ([c] + rest)[1..] == rest;
    assert forall i :: 0 < i < |rest| + 1 ==> ([c] + rest)[i] == rest[i - 1];
    if c !in failing {
      assert before + ([c] + Executed(rest, failing)) == (before + [c]) + Executed(rest, failing);
    }
  }

  /**
   * The commands started are the plan's first ones, every one of them but
   * the last succeeded, a failure stops the rest, and the whole plan runs
   * exactly when nothing in it fails.
   */
  lemma {:induction false} ExecutedStopsAtFailure(plan: seq<Command>, failing: set<Command>)
    ensures var run := Executed(plan, failing);
      && |run| <= |plan| && run == plan[..|run|]
      && (forall i :: 0 <= i < |run| - 1 ==> run[i] !in failing)
      && (|run| < |plan| ==> run != [] && run[|run| - 1] in failing)
      && (run == plan && (plan == [] || plan[|plan| - 1] !in failing) <==> AllSucceed(plan, failing))
    decreases |plan|
  {
    if plan != [] && plan[0] !in failing {
      var rest := plan[1..];
      ExecutedStopsAtFailure(rest, failing);
      var run := Executed(plan, failing);
      assert run == [plan[0]] + Executed(rest, failing);
      assert forall i :: 0 < i < |plan| ==> plan[i] == rest[i - 1];
      if AllSucceed(plan, failing) {
        assert AllSucceed(rest, failing);
      }
      if |run| == |plan| {
        assert Executed(rest, failing) == rest;
      }
    }
  }

  // ---------------------------------------------------------------------
  // Running the commands
  // ---------------------------------------------------------------------

  /**
   * `subprocess.run` with `check=True`: `log` is every command started, in
   * order; `failing` the commands that exit non-zero (raising
   * CalledProcessError); `outputs` what the others print.
   */
  class CommandRunner {
    var log: seq<Command>
    const failing: set<Command>
    const outputs: map<Command, string>

    constructor (failing: set<Command>, outputs: map<Command, string>)
      ensures log == [] && this.failing == failing && this.outputs == outputs
    {
      log := [];
      this.failing := failing;
      this.outputs := outputs;
    }

    function OutputOf(cmd: Command): string
    {
      if cmd in outputs then outputs[cmd] else ""
    }

    /** Starts `cmd`; false where `check=True` raises. */
    method Run(cmd: Command) returns (ok: bool)
      modifies this`log
      ensures log == old(log) + [cmd]
      ensures ok <==> cmd !in failing
    {
      log := log + [cmd];
      ok := cmd !in failing;
    }

    /** Starts `cmd` with `capture_output=True`: its output, or None where `check=True` raises. */
    method Capture(cmd: Command) returns (output: Option<string>)
      modifies this`log
      ensures log == old(log) + [cmd]
      ensures output.Some? <==> cmd !in failing
      ensures output.Some? ==> output.value == OutputOf(cmd)
    {
      log := log + [cmd];
      output := if cmd in failing then None else Some(OutputOf(cmd));
    }

    /** The commands `conan_profile_ensure` starts: the listing, then detection when no profile is called `default`. */
    function ProfileCommands(host: Platform): seq<Command>
      reads this
    {
      if ListProfiles in failing || HasDefault(OutputOf(ListProfiles)) then [ListProfiles]
      else [ListProfiles, DetectCommand(host)]
    }

    /** What `conan_profile_ensure` writes to `default_oiio_build`, or None where it raises. */
    function EnsuredProfile(host: Platform, profile: Option<string>, cppStd: string): Option<string>
      reads this
    {
      if ListProfiles in failing then None
      else if !HasDefault(OutputOf(ListProfiles)) && DetectCommand(host) in failing then None
      else if profile.None? then None
      else Some(ProfileText(profile.value, cppStd))
    }

    /** Detection runs exactly when the listing worked and shows no `default` line; the profile is written exactly when no step raised. */
    lemma ProfileSteps(host: Platform, profile: Option<string>, cppStd: string)
      ensures var cmds := ProfileCommands(host);
        && cmds[0] == ListProfiles
        && (|cmds| == 2 <==> ListProfiles !in failing && !HasDefault(OutputOf(ListProfiles)))
        && (|cmds| == 2 ==> cmds[1] == DetectCommand(host))
        && |cmds| <= 2
      ensures EnsuredProfile(host, profile, cppStd).Some?
          <==> profile.Some? && AllSucceed(ProfileCommands(host), failing)
    {
      var cmds := ProfileCommands(host);
      if |cmds| == 2 {
        assert cmds[1] == DetectCommand(host);
      }
    }

    /**
     * `conan_profile_ensure`: list the profiles, detect one when there is no
     * `default`, then rewrite the `default` profile's cppstd lines. `profile`
     * is the content of `~/.conan2/profiles/default` (None: the file is missing
     * and reading it raises); the result is what is written to
     * `default_oiio_build`, or None where a step raised.
     */
    method ConanProfileEnsure(host: Platform, profile: Option<string>, cppStd: string := DefaultCppStd)
      returns (written: Option<string>)
      modifies this`log
      ensures log == old(log) + ProfileCommands(host)
      ensures written == EnsuredProfile(host, profile, cppStd)
    {
      var listing := Capture(ListProfiles);
      if listing.None? {
        return None;
      }
      var profiles := ProfileNames(listing.value);
      if DefaultProfile !in profiles {
        var detected := Run(DetectCommand(host));
        if !detected {
          return None;
        }
      }
      if profile.None? {
        return None;
      }
      var lines := SplitLines(profile.value);
      var newLines := RewriteCppStd(lines, cppStd);
      written := Some(JoinLines(newLines));
    }

    /**
     * The calls of `conan_install_package`, each with `check=True`: the first
     * command (when `first`), the middle two, the last (when `final`); the
     * first that fails raises and nothing after it starts.
     */
    method RunInOrder(first: bool, firstCmd: Command, second: Command, third: Command, final: bool, finalCmd: Command)
      returns (ok: bool)
      modifies this`log
      ensures log == old(log) + Executed(InOrder(first, firstCmd, second, third, final, finalCmd), failing)
      ensures ok <==> AllSucceed(InOrder(first, firstCmd, second, third, final, finalCmd), failing)
    {
      ghost var last := if final then [finalCmd] else [];
      ghost var rest := [second] + ([third] + last);
      ghost var plan := InOrder(first, firstCmd, second, third, final, finalCmd);
      ghost var goal := old(log) + Executed(plan, failing);
      assert plan == if first then [firstCmd] + rest else rest;
      if first {
        RunFirst(log, firstCmd, rest, failing);
        ok := Run(firstCmd);
        if !ok {
          return;
        }
      }
      RunFirst(log, second, [third] + last, failing);
      ok := Run(second);
      if !ok {
        return;
      }
      RunFirst(log, third, last, failing);
      ok := Run(third);
      if !ok {
        return;
      }
      if final {
        RunFirst(log, finalCmd, [], failing);
        ok := Run(finalCmd);
      }
    }

    /**
     * `conan_install_package`: assemble the four command lines, then run
     * source (when `source`), install, build, export (when `exportPackage`);
     * `ok` is false where a command failed and the call raised.
     */
    method ConanInstallPackage(root: string, version: string, profile: string, source: bool, exportPackage: bool,
                               toBuild: Option<seq<string>>) returns (ok: bool)
      modifies this`log
      ensures log == old(log) + Executed(InstallPlan(root, version, profile, source, exportPackage, toBuild), failing)
      ensures ok <==> AllSucceed(InstallPlan(root, version, profile, source, exportPackage, toBuild), failing)
    {
      var targets := if toBuild.None? then DefaultBuild else toBuild.value;
      var flags := ExpandBuildFlags(targets);
      var sourceCmd := SourceCommand(root, version);
      var installCmd := ProfiledCommand("install", root, version, profile) + flags;
      var buildCmd := ProfiledCommand("build", root, version, profile);
      var exportCmd := ProfiledCommand("export-pkg", root, version, profile);
      ok := RunInOrder(source, sourceCmd, installCmd, buildCmd, exportPackage, exportCmd);
    }
  }
}
