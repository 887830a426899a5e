/**
 * The relocation policy of the macOS fixer, on values: what
 * `check_and_add_rpath`, `ensure_rpaths`, `update_rpath_references` and
 * `relink_and_delocate` do to the store of binaries, and what follows from
 * it. The class in store.dfy runs the same steps in place and is proved
 * against these functions.
 */
module Relocation {
  import opened Optional
  import opened Text
  import opened Paths
  import opened MachO
  import opened Staging

  /** The binaries by path; a path absent here is one `otool` cannot read. */
  type Files = map<string, Binary>

  /** Paths the tools fail on although the binary is there: `otool` on the first, `install_name_tool` on the second. */
  datatype Faults = Faults(unreadable: set<string>, unwritable: set<string>)

  predicate CanInspect(files: Files, faults: Faults, path: string)
  {
    path in files && path !in faults.unreadable
  }

  predicate CanEdit(files: Files, faults: Faults, path: string)
  {
    path in files && path !in faults.unwritable
  }

  /** The install name and the references of a binary are references (LC_RPATH entries may be anything). */
  predicate ReferencesWellFormed(b: Binary)
  {
    && (b.installName.Some? ==> IsReference(b.installName.value))
    && (forall i :: 0 <= i < |b.dependencies| ==> IsReference(b.dependencies[i]))
  }

  predicate AllWellFormed(files: Files)
  {
    forall p :: p in files ==> WellFormed(files[p])
  }

  predicate AllReferencesWellFormed(files: Files)
  {
    forall p :: p in files ==> ReferencesWellFormed(files[p])
  }

  /**
   * `after` differs from `before` only by LC_RPATH entries appended at the
   * end: same binaries, same install names, same references.
   */
  predicate AppendsOnly(before: Files, after: Files)
  {
    && before.Keys == after.Keys
    && forall p :: p in before ==>
      && after[p].installName == before[p].installName
      && after[p].dependencies == before[p].dependencies
      && |before[p].rpaths| <= |after[p].rpaths|
      && after[p].rpaths[..|before[p].rpaths|] == before[p].rpaths
  }

  lemma AppendsOnlyTransitive(a: Files, b: Files, c: Files)
    requires AppendsOnly(a, b) && AppendsOnly(b, c)
    ensures AppendsOnly(a, c)
  {
    forall p | p in a ensures c[p].rpaths[..|a[p].rpaths|] == a[p].rpaths {
      assert c[p].rpaths[..|a[p].rpaths|] == c[p].rpaths[..|b[p].rpaths|][..|a[p].rpaths|];
    }
  }

  // ---------------------------------------------------------------------
  // check_and_add_rpath
  // ---------------------------------------------------------------------

  /** The three messages `check_and_add_rpath` prints. */
  datatype RpathOutcome = AlreadyPresent | Added | Failed

  datatype Step = Step(files: Files, outcome: RpathOutcome)

  /**
   * One `check_and_add_rpath`: read `otool -l`; if the rpath occurs anywhere
   * in that text, do nothing; otherwise `install_name_tool -add_rpath`. A
   * failing tool is reported and leaves the binary as it was.
   */
  function CheckAndAdd(files: Files, faults: Faults, path: string, rpath: string): (step: Step)
    ensures step.files.Keys == files.Keys
    ensures step.outcome != Added ==> step.files == files
    ensures forall p :: p in files && p != path ==> step.files[p] == files[p]
  {
    if !CanInspect(files, faults, path) then Step(files, Failed)
    else if Contains(LoadCommands(path, files[path]), rpath) then Step(files, AlreadyPresent)
    else if !CanEdit(files, faults, path) then Step(files, Failed)
    else
      match AddRpath(files[path], rpath)
      case None => Step(files, Failed)
      case Some(b) => Step(files[path := b], Added)
  }

  /**
   * A binary is settled for `rpath` when `check_and_add_rpath` cannot change
   * it: a tool fails on it, or the rpath already occurs in its `otool -l` text.
   */
  predicate Settled(files: Files, faults: Faults, path: string, rpath: string)
  {
    !CanInspect(files, faults, path) || !CanEdit(files, faults, path)
    || Contains(LoadCommands(path, files[path]), rpath)
  }

  /**
   * What one call does: it adds `rpath` exactly when both tools work on the
   * binary and `rpath` is not in its text; then it appends one LC_RPATH and
   * changes nothing else. The duplicate refusal of `-add_rpath` is never hit,
   * because every LC_RPATH is in the text. Afterwards the binary is settled.
   */
  lemma CheckAndAddEffect(files: Files, faults: Faults, path: string, rpath: string)
    ensures var step := CheckAndAdd(files, faults, path, rpath);
      && (step.outcome == Added <==> !Settled(files, faults, path, rpath))
      && (step.outcome == AlreadyPresent <==>
            CanInspect(files, faults, path) && Contains(LoadCommands(path, files[path]), rpath))
      && step.files == (if step.outcome == Added
                        then files[path := files[path].(rpaths := files[path].rpaths + [rpath])]
                        else files)
      && Settled(step.files, faults, path, rpath)
  {
    var step := CheckAndAdd(files, faults, path, rpath);
    if !Settled(files, faults, path, rpath) {
      if rpath in files[path].rpaths {
        ListedRpathIsPresent(path, files[path], rpath);
      }
      var b := files[path].(rpaths := files[path].rpaths + [rpath]);
      assert step.files == files[path := b];
      ListedRpathIsPresent(path, b, rpath);
    }
  }

  /** Check before add: a second call right after the first finds the rpath and changes nothing. */
  lemma {:induction false} CheckAndAddTwice(files: Files, faults: Faults, path: string, rpath: string)
    ensures var first := CheckAndAdd(files, faults, path, rpath);
      var second := CheckAndAdd(first.files, faults, path, rpath);
      second.files == first.files && second.outcome != Added
  {
    var first := CheckAndAdd(files, faults, path, rpath);
    CheckAndAddEffect(files, faults, path, rpath);
    CheckAndAddEffect(first.files, faults, path, rpath);
  }

  /** A binary that already shows `rpath` anywhere in its text is left alone, even with no such LC_RPATH. */
  lemma PresentMeansUntouched(files: Files, faults: Faults, path: string, rpath: string)
    requires CanInspect(files, faults, path) && Contains(LoadCommands(path, files[path]), rpath)
    ensures CheckAndAdd(files, faults, path, rpath) == Step(files, AlreadyPresent)
  {
  }

  /**
   * So a library whose references were already rewritten to
   * `@loader_path/...` never receives an `@loader_path` LC_RPATH.
   */
  lemma RewrittenLibraryGetsNoLoaderPathRpath(files: Files, faults: Faults, path: string, k: nat)
    requires CanInspect(files, faults, path)
    requires k < |files[path].dependencies| && StartsWith(files[path].dependencies[k], LoaderPath)
    ensures CheckAndAdd(files, faults, path, LoaderPath) == Step(files, AlreadyPresent)
  {
    RewrittenReferenceLooksLikeRpath(path, files[path], k);
  }

  lemma SettledSurvivesAppends(before: Files, after: Files, faults: Faults, path: string, rpath: string)
    requires AppendsOnly(before, after) && Settled(before, faults, path, rpath)
    ensures Settled(after, faults, path, rpath)
  {
    if CanInspect(before, faults, path) && CanEdit(before, faults, path) {
      var b := before[path];
      var more := after[path].rpaths[|b.rpaths|..];
      assert after[path].rpaths == b.rpaths + more;
      assert after[path] == b.(rpaths := b.rpaths + more);
      AppendRpathsExtendsText(path, b, more);
      ContainsExtendRight(LoadCommands(path, b), rpath, RpathCommands(more));
    }
  }

  // ---------------------------------------------------------------------
  // ensure_rpaths
  // ---------------------------------------------------------------------

  /** `ensure_rpaths`: `check_and_add_rpath` on each binary, in list order, whatever the earlier ones did. */
  function RpathsEnsured(files: Files, faults: Faults, binaries: seq<string>, rpath: string): (after: Files)
    ensures after.Keys == files.Keys
    ensures forall p :: p in files && p !in binaries ==> after[p] == files[p]
    decreases |binaries|
  {
    if binaries == [] then files
    else CheckAndAdd(RpathsEnsured(files, faults, binaries[..|binaries| - 1], rpath), faults, binaries[|binaries| - 1], rpath).files
  }

  /** The message `check_and_add_rpath` prints for each binary of `ensure_rpaths`, in list order. */
  function RpathOutcomes(files: Files, faults: Faults, binaries: seq<string>, rpath: string): (outcomes: seq<RpathOutcome>)
    ensures |outcomes| == |binaries|
    decreases |binaries|
  {
    if binaries == [] then []
    else
      var init := binaries[..|binaries| - 1];
      RpathOutcomes(files, faults, init, rpath)
        + [CheckAndAdd(RpathsEnsured(files, faults, init, rpath), faults, binaries[|binaries| - 1], rpath).outcome]
  }

  /** Each binary's message is decided by the store the binaries before it left. */
  lemma {:induction false} RpathOutcomesReport(files: Files, faults: Faults, binaries: seq<string>, rpath: string, i: nat)
    requires i < |binaries|
    ensures RpathOutcomes(files, faults, binaries, rpath)[i]
         == CheckAndAdd(RpathsEnsured(files, faults, binaries[..i], rpath), faults, binaries[i], rpath).outcome
    decreases |binaries|
  {
    var init := binaries[..|binaries| - 1];
    if i < |init| {
      RpathOutcomesReport(files, faults, init, rpath, i);
      assert init[..i] == binaries[..i];
    } else {
      assert binaries[..i] == init;
    }
  }

  /**
   * What `ensure_rpaths` leaves: every listed binary settled (so every one
   * both tools work on shows `rpath`, whatever failed on the others), each
   * binary either as it was or with the single LC_RPATH `rpath` appended,
   * and binaries not listed untouched.
   */
  lemma {:induction false} EnsureEffect(files: Files, faults: Faults, binaries: seq<string>, rpath: string)
    ensures var after := RpathsEnsured(files, faults, binaries, rpath);
      && AppendsOnly(files, after)
      && (forall b :: b in binaries ==> Settled(after, faults, b, rpath))
      && (forall p :: p in files ==>
            after[p] == files[p]
            || (p in binaries && after[p] == files[p].(rpaths := files[p].rpaths + [rpath])))
    decreases |binaries|
  {
    if binaries != [] {
      var init := binaries[..|binaries| - 1];
      var last := binaries[|binaries| - 1];
      var mid := RpathsEnsured(files, faults, init, rpath);
      var after := RpathsEnsured(files, faults, binaries, rpath);
      EnsureEffect(files, faults, init, rpath);
      CheckAndAddEffect(mid, faults, last, rpath);
      assert AppendsOnly(mid, after);
      AppendsOnlyTransitive(files, mid, after);
      forall b | b in binaries ensures Settled(after, faults, b, rpath) {
        if b != last {
          assert b in init;
          SettledSurvivesAppends(mid, after, faults, b, rpath);
        }
      }
      forall p | p in files && p != last
        ensures after[p] == files[p] || (p in binaries && after[p] == files[p].(rpaths := files[p].rpaths + [rpath]))
      {
        assert after[p] == mid[p];
        assert p in init ==> p in binaries;
      }
    }
  }

  /** When every listed binary is already settled, `ensure_rpaths` changes nothing. */
  lemma {:induction false} EnsureSettledIsNoOp(files: Files, faults: Faults, binaries: seq<string>, rpath: string)
    requires forall b :: b in binaries ==> Settled(files, faults, b, rpath)
    ensures RpathsEnsured(files, faults, binaries, rpath) == files
    decreases |binaries|
  {
    if binaries != [] {
      EnsureSettledIsNoOp(files, faults, binaries[..|binaries| - 1], rpath);
      CheckAndAddEffect(files, faults, binaries[|binaries| - 1], rpath);
    }
  }

  /** Running `ensure_rpaths` a second time with the same arguments changes nothing. */
  lemma EnsureIdempotent(files: Files, faults: Faults, binaries: seq<string>, rpath: string)
    ensures var once := RpathsEnsured(files, faults, binaries, rpath);
      RpathsEnsured(once, faults, binaries, rpath) == once
  {
    EnsureEffect(files, faults, binaries, rpath);
    EnsureSettledIsNoOp(RpathsEnsured(files, faults, binaries, rpath), faults, binaries, rpath);
  }

  /** `check_and_add_rpath` never lists an LC_RPATH twice in a binary. */
  lemma CheckAndAddKeepsWellFormed(files: Files, faults: Faults, path: string, rpath: string)
    requires AllWellFormed(files)
    ensures AllWellFormed(CheckAndAdd(files, faults, path, rpath).files)
  {
  }

  /** Nor does `ensure_rpaths`. */
  lemma {:induction false} EnsureKeepsWellFormed(files: Files, faults: Faults, binaries: seq<string>, rpath: string)
    requires AllWellFormed(files)
    ensures AllWellFormed(RpathsEnsured(files, faults, binaries, rpath))
    decreases |binaries|
  {
    if binaries != [] {
      EnsureKeepsWellFormed(files, faults, binaries[..|binaries| - 1], rpath);
      CheckAndAddKeepsWellFormed(RpathsEnsured(files, faults, binaries[..|binaries| - 1], rpath), faults, binaries[|binaries| - 1], rpath);
    }
  }

  // ---------------------------------------------------------------------
  // update_rpath_references
  // ---------------------------------------------------------------------

  /** Some target name occurs in an `otool -L` line. */
  predicate MatchesAny(line: string, targets: seq<string>)
  {
    exists t :: t in targets && Contains(line, t)
  }

  predicate HasTokens(lines: seq<string>)
  {
    forall i :: 0 <= i < |lines| ==> FirstToken(lines[i]).Some?
  }

  /**
   * The `-change` sources one line yields: its first word (`line.split()[0]`),
   * once for each target name the line contains, so a line naming
   * `libtbbmalloc` yields it for `libtbb` as well.
   */
  function LineChanges(line: string, targets: seq<string>): seq<string>
    requires FirstToken(line).Some?
    decreases |targets|
  {
    if targets == [] then []
    else
      LineChanges(line, targets[..|targets| - 1])
        + (if Contains(line, targets[|targets| - 1]) then [FirstToken(line).value] else [])
  }

  /** A line yields its first word, and only that, exactly when it contains a target name. */
  lemma {:induction false} LineChangesMembers(line: string, targets: seq<string>)
    requires FirstToken(line).Some?
    ensures forall c :: c in LineChanges(line, targets) <==> MatchesAny(line, targets) && c == FirstToken(line).value
    decreases |targets|
  {
    if targets != [] {
      var init := targets[..|targets| - 1];
      var last := targets[|targets| - 1];
      LineChangesMembers(line, init);
      assert forall t :: t in targets <==> t in init || t == last;
    }
  }

  /** The `-change` sources of a whole listing, line after line. */
  function ListingChanges(lines: seq<string>, targets: seq<string>): seq<string>
    requires HasTokens(lines)
    decreases |lines|
  {
    if lines == [] then []
    else ListingChanges(lines[..|lines| - 1], targets) + LineChanges(lines[|lines| - 1], targets)
  }

  /** `c` is the first word of a line of `lines` that contains a target name. */
  predicate IsSource(lines: seq<string>, targets: seq<string>, c: string)
  {
    exists line :: line in lines && MatchesAny(line, targets) && FirstToken(line) == Some(c)
  }

  /** A source of the first lines of a listing is a source of the listing. */
  lemma SourceOfPrefix(lines: seq<string>, n: nat, targets: seq<string>, c: string)
    requires n <= |lines| && IsSource(lines[..n], targets, c)
    ensures IsSource(lines, targets, c)
  {
    var line :| line in lines[..n] && MatchesAny(line, targets) && FirstToken(line) == Some(c);
    var i :| 0 <= i < n && lines[..n][i] == line;
    assert lines[i] == line;
  }

  /** A source of a listing comes from its first lines or from its last line. */
  lemma SourceOfLonger(lines: seq<string>, targets: seq<string>, c: string)
    requires lines != [] && IsSource(lines, targets, c)
    ensures || IsSource(lines[..|lines| - 1], targets, c)
            || (MatchesAny(lines[|lines| - 1], targets) && FirstToken(lines[|lines| - 1]) == Some(c))
  {
    var init := lines[..|lines| - 1];
    var last := lines[|lines| - 1];
    assert lines == init + [last];
    var line :| line in lines && MatchesAny(line, targets) && FirstToken(line) == Some(c);
    if line != last {
      assert line in init;
    }
  }

  /** The sources of a listing are exactly the first words of its lines that contain a target name. */
  lemma {:induction false} ListingChangesMembers(lines: seq<string>, targets: seq<string>)
    requires HasTokens(lines)
    ensures forall c :: c in ListingChanges(lines, targets) <==> IsSource(lines, targets, c)
    decreases |lines|
  {
    if lines != [] {
      var init := lines[..|lines| - 1];
      var last := lines[|lines| - 1];
      ListingChangesMembers(init, targets);
      LineChangesMembers(last, targets);
      assert ListingChanges(lines, targets) == ListingChanges(init, targets) + LineChanges(last, targets);
      forall c ensures c in ListingChanges(lines, targets) <==> IsSource(lines, targets, c) {
        if IsSource(lines, targets, c) {
          SourceOfLonger(lines, targets, c);
        }
        if IsSource(init, targets, c) {
          SourceOfPrefix(lines, |lines| - 1, targets, c);
        }
        if MatchesAny(last, targets) && FirstToken(last) == Some(c) {
          assert last in lines;
        }
      }
    }
  }

  lemma LineChangesStep(line: string, targets: seq<string>, j: nat)
    requires FirstToken(line).Some? && j < |targets|
    ensures LineChanges(line, targets[..j + 1])
         == LineChanges(line, targets[..j]) + (if Contains(line, targets[j]) then [FirstToken(line).value] else [])
  {
    assert targets[..j + 1][..j] == targets[..j];
  }

  /** A line that yields a source for some of the target names yields one for all of them. */
  lemma LineChangesPrefix(line: string, targets: seq<string>, j: nat)
    requires FirstToken(line).Some? && j <= |targets|
    ensures LineChanges(line, targets[..j]) != [] ==> LineChanges(line, targets) != []
  {
    LineChangesMembers(line, targets[..j]);
    LineChangesMembers(line, targets);
    if LineChanges(line, targets[..j]) != [] {
      assert LineChanges(line, targets[..j])[0] in LineChanges(line, targets[..j]);
      var t :| t in targets[..j] && Contains(line, t);
      assert t in targets;
      assert FirstToken(line).value in LineChanges(line, targets);
    }
  }

  lemma ListingChangesStep(lines: seq<string>, i: nat, targets: seq<string>)
    requires HasTokens(lines) && i < |lines|
    ensures HasTokens(lines[..i]) && HasTokens(lines[..i + 1])
    ensures ListingChanges(lines[..i + 1], targets) == ListingChanges(lines[..i], targets) + LineChanges(lines[i], targets)
  {
    assert lines[..i + 1][..i] == lines[..i];
  }

  lemma {:induction false} ApplyChangesAppend(b: Binary, first: seq<string>, second: seq<string>)
    ensures ApplyChanges(b, first + second) == ApplyChanges(ApplyChanges(b, first), second)
    decreases |second|
  {
    if second != [] {
      var init := second[..|second| - 1];
      var last := second[|second| - 1];
      var all := first + second;
      var mid := ApplyChanges(b, first);
      assert all[..|all| - 1] == first + init;
      assert all[|all| - 1] == last;
      calc {
        ApplyChanges(b, all);
        ChangeDependency(ApplyChanges(b, first + init), last, LoaderPathReference(last));
        { ApplyChangesAppend(b, first, init); }
        ChangeDependency(ApplyChanges(mid, init), last, LoaderPathReference(last));
        ApplyChanges(mid, second);
      }
    } else {
      assert first + second == first;
    }
  }

  /**
   * The store after `install_name_tool -change <c> @loader_path/<name of c>`
   * on `dylib` for each `c` of `changes`, in order; a library the tool
   * cannot write stays as it is.
   */
  function Edited(files: Files, faults: Faults, dylib: string, changes: seq<string>): Files
  {
    if CanEdit(files, faults, dylib) then files[dylib := ApplyChanges(files[dylib], changes)] else files
  }

  /** Editing keeps the library editable, so a list of changes is done by doing its parts one after the other. */
  lemma EditedAppend(files: Files, faults: Faults, dylib: string, first: seq<string>, second: seq<string>)
    ensures CanEdit(Edited(files, faults, dylib, first), faults, dylib) == CanEdit(files, faults, dylib)
    ensures Edited(files, faults, dylib, first + second) == Edited(Edited(files, faults, dylib, first), faults, dylib, second)
  {
    if CanEdit(files, faults, dylib) {
      ApplyChangesAppend(files[dylib], first, second);
    }
  }

  /** One more change on top of `changes` is one more `install_name_tool -change` on the store they left. */
  lemma EditedStep(files: Files, faults: Faults, dylib: string, changes: seq<string>, c: string)
    ensures CanEdit(Edited(files, faults, dylib, changes), faults, dylib) == CanEdit(files, faults, dylib)
    ensures Edited(files, faults, dylib, changes + [c])
         == var mid := Edited(files, faults, dylib, changes);
            if CanEdit(mid, faults, dylib) then mid[dylib := ChangeDependency(mid[dylib], c, LoaderPathReference(c))] else mid
  {
    if CanEdit(files, faults, dylib) {
      ApplyChangesStep(files[dylib], changes, c);
    }
  }

  lemma ApplyChangesStep(b: Binary, changes: seq<string>, c: string)
    ensures ApplyChanges(b, changes + [c]) == ChangeDependency(ApplyChanges(b, changes), c, LoaderPathReference(c))
  {
    assert (changes + [c])[..|changes|] == changes;
  }

  /** A listing whose first lines already yield a source yields one as a whole. */
  lemma ListingChangesPrefix(lines: seq<string>, n: nat, targets: seq<string>)
    requires HasTokens(lines) && n <= |lines|
    ensures HasTokens(lines[..n])
    ensures ListingChanges(lines[..n], targets) != [] ==> ListingChanges(lines, targets) != []
  {
    var prefix := lines[..n];
    assert forall i :: 0 <= i < n ==> prefix[i] == lines[i];
    ListingChangesMembers(prefix, targets);
    ListingChangesMembers(lines, targets);
    if ListingChanges(prefix, targets) != [] {
      var c := ListingChanges(prefix, targets)[0];
      assert c in ListingChanges(prefix, targets);
      SourceOfPrefix(lines, n, targets, c);
    }
  }

  /** `install_name_tool -change c @loader_path/<name of c>` for each source c in turn. */
  function ApplyChanges(b: Binary, changes: seq<string>): (r: Binary)
    ensures r.installName == b.installName && r.rpaths == b.rpaths
    ensures |r.dependencies| == |b.dependencies|
    decreases |changes|
  {
    if changes == [] then b
    else
      var last := changes[|changes| - 1];
      ChangeDependency(ApplyChanges(b, changes[..|changes| - 1]), last, LoaderPathReference(last))
  }

  /**
   * Each reference ends up rewritten when it is one of the sources and
   * untouched otherwise; a reference rewritten early is not disturbed by
   * later changes, since the rewrite is a fixed point of itself.
   */
  lemma {:induction false} ApplyChangesPointwise(b: Binary, changes: seq<string>)
    requires ReferencesWellFormed(b)
    ensures forall k :: 0 <= k < |b.dependencies| ==>
      ApplyChanges(b, changes).dependencies[k]
        == if b.dependencies[k] in changes then LoaderPathReference(b.dependencies[k]) else b.dependencies[k]
    decreases |changes|
  {
    if changes != [] {
      var init := changes[..|changes| - 1];
      var last := changes[|changes| - 1];
      ApplyChangesPointwise(b, init);
      forall k | 0 <= k < |b.dependencies|
        ensures ApplyChanges(b, changes).dependencies[k]
          == if b.dependencies[k] in changes then LoaderPathReference(b.dependencies[k]) else b.dependencies[k]
      {
        var d := b.dependencies[k];
        assert d in changes <==> d in init || d == last;
        RewriteFixedPoint(d);
      }
    }
  }

  lemma ChangeToItself(b: Binary, from: string, to: string)
    requires from in b.dependencies ==> to == from
    ensures ChangeDependency(b, from, to) == b
  {
    assert ChangeDependency(b, from, to).dependencies == b.dependencies;
  }

  /** Changes whose every match is already its own rewrite leave the binary as it is. */
  lemma {:induction false} ApplyChangesNoOp(b: Binary, changes: seq<string>)
    requires forall k :: 0 <= k < |b.dependencies| && b.dependencies[k] in changes ==>
      LoaderPathReference(b.dependencies[k]) == b.dependencies[k]
    ensures ApplyChanges(b, changes) == b
    decreases |changes|
  {
    if changes != [] {
      var init := changes[..|changes| - 1];
      var last := changes[|changes| - 1];
      assert forall c :: c in init ==> c in changes;
      ApplyChangesNoOp(b, init);
      if last in b.dependencies {
        var k :| 0 <= k < |b.dependencies| && b.dependencies[k] == last;
      }
      ChangeToItself(b, last, LoaderPathReference(last));
    }
  }

  lemma {:induction false} ApplyChangesIgnoresRpaths(b: Binary, changes: seq<string>, rpaths: seq<string>)
    ensures ApplyChanges(b.(rpaths := rpaths), changes) == ApplyChanges(b, changes).(rpaths := rpaths)
    decreases |changes|
  {
    if changes != [] {
      ApplyChangesIgnoresRpaths(b, changes[..|changes| - 1], rpaths);
    }
  }

  /** The sources `update_rpath_references` finds in the `otool -L` listing of one library. */
  function ChangesOf(path: string, b: Binary, targets: seq<string>): seq<string>
  {
    ListingLinesHaveTokens(path, b);
    ListingChanges(LibraryListing(path, b), targets)
  }

  /** The library after all the `-change` calls of `update_rpath_references` succeeded on it. */
  function ReferencesRewritten(path: string, b: Binary, targets: seq<string>): Binary
  {
    ApplyChanges(b, ChangesOf(path, b, targets))
  }

  /** The first word of a line of the listing that contains a target name is a source, and nothing else is. */
  lemma ChangesOfMembers(path: string, b: Binary, targets: seq<string>)
    ensures HasTokens(LibraryListing(path, b))
    ensures forall c :: c in ChangesOf(path, b, targets) <==> IsSource(LibraryListing(path, b), targets, c)
  {
    ListingLinesHaveTokens(path, b);
    ListingChangesMembers(LibraryListing(path, b), targets);
  }

  /** Every source is the library's own path (header line `<path>:`), its install name or a reference, from a matching line. */
  lemma ChangesOfSources(path: string, b: Binary, targets: seq<string>)
    requires ReferencesWellFormed(b)
    ensures forall c :: c in ChangesOf(path, b, targets) ==>
      || (MatchesAny(HeaderLine(path), targets) && FirstToken(HeaderLine(path)) == Some(c))
      || (b.installName.Some? && MatchesAny(ReferenceLine(b.installName.value), targets) && c == b.installName.value)
      || (exists k :: 0 <= k < |b.dependencies| && MatchesAny(ReferenceLine(b.dependencies[k]), targets)
                      && c == b.dependencies[k])
  {
    var lines := LibraryListing(path, b);
    ChangesOfMembers(path, b, targets);
    ListingLayout(path, b);
    forall c | c in ChangesOf(path, b, targets)
      ensures || (MatchesAny(HeaderLine(path), targets) && FirstToken(HeaderLine(path)) == Some(c))
              || (b.installName.Some? && MatchesAny(ReferenceLine(b.installName.value), targets) && c == b.installName.value)
              || (exists k :: 0 <= k < |b.dependencies| && MatchesAny(ReferenceLine(b.dependencies[k]), targets)
                              && c == b.dependencies[k])
    {
      var line :| line in lines && MatchesAny(line, targets) && FirstToken(line) == Some(c);
      if b.installName.Some? && line == ReferenceLine(b.installName.value) {
        ReferenceLineToken(b.installName.value);
      } else if line != HeaderLine(path) {
        var k :| 0 <= k < |b.dependencies| && line == ReferenceLine(b.dependencies[k]);
        ReferenceLineToken(b.dependencies[k]);
      }
    }
  }

  /** Conversely, every reference whose line contains a target name is a source. */
  lemma MatchedAreSources(path: string, b: Binary, targets: seq<string>)
    requires ReferencesWellFormed(b)
    ensures forall k :: 0 <= k < |b.dependencies| && MatchesAny(ReferenceLine(b.dependencies[k]), targets) ==>
      b.dependencies[k] in ChangesOf(path, b, targets)
  {
    var lines := LibraryListing(path, b);
    ChangesOfMembers(path, b, targets);
    ListingLayout(path, b);
    forall k | 0 <= k < |b.dependencies| && MatchesAny(ReferenceLine(b.dependencies[k]), targets)
      ensures b.dependencies[k] in ChangesOf(path, b, targets)
    {
      ReferenceLineToken(b.dependencies[k]);
      assert IsSource(lines, targets, b.dependencies[k]);
    }
  }

  /** The header line `<path>:` is read too: its first word is a source when the line contains a target name. */
  lemma HeaderIsSource(path: string, b: Binary, targets: seq<string>)
    ensures forall c :: FirstToken(HeaderLine(path)) == Some(c) && MatchesAny(HeaderLine(path), targets) ==>
      c in ChangesOf(path, b, targets)
  {
    var lines := LibraryListing(path, b);
    ChangesOfMembers(path, b, targets);
    ListingLayout(path, b);
    assert lines[0] in lines;
  }

  /** So is the install name's line: the install name is a source when its line contains a target name. */
  lemma IdIsSource(path: string, b: Binary, targets: seq<string>)
    requires ReferencesWellFormed(b)
    ensures b.installName.Some? && MatchesAny(ReferenceLine(b.installName.value), targets) ==>
      b.installName.value in ChangesOf(path, b, targets)
  {
    if b.installName.Some? {
      var lines := LibraryListing(path, b);
      ChangesOfMembers(path, b, targets);
      ReferenceLineToken(b.installName.value);
      assert lines[1] == ReferenceLine(b.installName.value);
      assert lines[1] in lines;
    }
  }

  /**
   * The rewrite of one library: every reference on a line naming a target
   * becomes `@loader_path/<its file name>`, every other reference (and the
   * install name, and the LC_RPATH list) stays, and the result is well formed.
   */
  lemma RewriteReferences(path: string, b: Binary, targets: seq<string>)
    requires ReferencesWellFormed(b)
    ensures var r := ReferencesRewritten(path, b, targets);
      && r.installName == b.installName && r.rpaths == b.rpaths
      && |r.dependencies| == |b.dependencies|
      && (forall k :: 0 <= k < |b.dependencies| && MatchesAny(ReferenceLine(b.dependencies[k]), targets) ==>
            r.dependencies[k] == LoaderPathReference(b.dependencies[k]))
      && (forall k :: 0 <= k < |b.dependencies| && b.dependencies[k] !in ChangesOf(path, b, targets) ==>
            r.dependencies[k] == b.dependencies[k])
      && ReferencesWellFormed(r)
      && (WellFormed(b) ==> WellFormed(r))
  {
    var r := ReferencesRewritten(path, b, targets);
    MatchedAreSources(path, b, targets);
    ApplyChangesPointwise(b, ChangesOf(path, b, targets));
    forall k | 0 <= k < |r.dependencies| ensures IsReference(r.dependencies[k]) {
      ReferenceKeepsName(b.dependencies[k]);
    }
  }

  /** Running the rewrite on an already rewritten library changes nothing. */
  lemma RewriteIdempotent(path: string, b: Binary, targets: seq<string>)
    requires ReferencesWellFormed(b)
    ensures var once := ReferencesRewritten(path, b, targets);
      ReferencesRewritten(path, once, targets) == once
  {
    var changes := ChangesOf(path, b, targets);
    var once := ReferencesRewritten(path, b, targets);
    RewriteReferences(path, b, targets);
    ApplyChangesPointwise(b, changes);
    MatchedAreSources(path, b, targets);
    HeaderIsSource(path, b, targets);
    IdIsSource(path, b, targets);
    ChangesOfSources(path, once, targets);
    forall k | 0 <= k < |once.dependencies| && once.dependencies[k] in ChangesOf(path, once, targets)
      ensures LoaderPathReference(once.dependencies[k]) == once.dependencies[k]
    {
      // the line that made it a source was already in the first listing,
      // or is a rewritten reference, which is its own rewrite
      RewriteFixedPoint(b.dependencies[k]);
    }
    ApplyChangesNoOp(once, ChangesOf(path, once, targets));
  }

  /** The LC_RPATH list plays no part in the rewrite. */
  lemma RewriteIgnoresRpaths(path: string, b: Binary, targets: seq<string>, rpaths: seq<string>)
    ensures ReferencesRewritten(path, b.(rpaths := rpaths), targets)
         == ReferencesRewritten(path, b, targets).(rpaths := rpaths)
  {
    assert LibraryListing(path, b.(rpaths := rpaths)) == LibraryListing(path, b);
    ApplyChangesIgnoresRpaths(b, ChangesOf(path, b, targets), rpaths);
  }

  /** One library of the loop: rewritten when both tools work on it; a failing tool leaves it as it was. */
  function DylibUpdated(files: Files, faults: Faults, dylib: string, targets: seq<string>): (updated: Files)
    ensures updated.Keys == files.Keys
    ensures forall p :: p in files && p != dylib ==> updated[p] == files[p]
    ensures dylib in files ==>
      updated[dylib].installName == files[dylib].installName && updated[dylib].rpaths == files[dylib].rpaths
  {
    if CanInspect(files, faults, dylib) && CanEdit(files, faults, dylib)
    then files[dylib := ReferencesRewritten(dylib, files[dylib], targets)]
    else files
  }

  /**
   * The library is processed without an error message: `otool -L` works,
   * and `install_name_tool` works or is never called on it.
   */
  predicate DylibSucceeds(files: Files, faults: Faults, dylib: string, targets: seq<string>)
  {
    CanInspect(files, faults, dylib) && (CanEdit(files, faults, dylib) || ChangesOf(dylib, files[dylib], targets) == [])
  }

  /** `update_rpath_references` over the globbed libraries, in glob order; an error on one does not stop the others. */
  function ReferencesUpdated(files: Files, faults: Faults, dylibs: seq<string>, targets: seq<string>): Files
    decreases |dylibs|
  {
    if dylibs == [] then files
    else DylibUpdated(ReferencesUpdated(files, faults, dylibs[..|dylibs| - 1], targets), faults, dylibs[|dylibs| - 1], targets)
  }

  /** Whether each library of the loop was processed without an error message, in glob order. */
  function Processed(files: Files, faults: Faults, dylibs: seq<string>, targets: seq<string>): (processed: seq<bool>)
    ensures |processed| == |dylibs|
    decreases |dylibs|
  {
    if dylibs == [] then []
    else
      var init := dylibs[..|dylibs| - 1];
      Processed(files, faults, init, targets)
        + [DylibSucceeds(ReferencesUpdated(files, faults, init, targets), faults, dylibs[|dylibs| - 1], targets)]
  }

  /**
   * A library is reported processed exactly when, in the state the earlier
   * libraries left, `otool` worked on it and `install_name_tool` worked or
   * was not needed.
   */
  lemma {:induction false} ProcessedReports(files: Files, faults: Faults, dylibs: seq<string>, targets: seq<string>)
    ensures forall i :: 0 <= i < |dylibs| ==>
      Processed(files, faults, dylibs, targets)[i]
        == DylibSucceeds(ReferencesUpdated(files, faults, dylibs[..i], targets), faults, dylibs[i], targets)
    decreases |dylibs|
  {
    if dylibs != [] {
      var init := dylibs[..|dylibs| - 1];
      ProcessedReports(files, faults, init, targets);
      forall i | 0 <= i < |dylibs|
        ensures Processed(files, faults, dylibs, targets)[i]
             == DylibSucceeds(ReferencesUpdated(files, faults, dylibs[..i], targets), faults, dylibs[i], targets)
      {
        if i < |init| {
          assert init[..i] == dylibs[..i];
        } else {
          assert dylibs[..i] == init;
        }
      }
    }
  }

  /** Both tools work on the library, so the loop rewrites it. */
  predicate Rewritable(files: Files, faults: Faults, dylibs: seq<string>, path: string)
  {
    path in dylibs && CanInspect(files, faults, path) && CanEdit(files, faults, path)
  }

  /**
   * After the loop each library both tools work on is rewritten exactly
   * once over (a library globbed twice is rewritten to the same result),
   * and every other binary is as it was.
   */
  lemma {:induction false} UpdatedPointwise(files: Files, faults: Faults, dylibs: seq<string>, targets: seq<string>)
    requires AllReferencesWellFormed(files)
    ensures var after := ReferencesUpdated(files, faults, dylibs, targets);
      && after.Keys == files.Keys
      && forall p :: p in files ==>
           after[p] == if Rewritable(files, faults, dylibs, p) then ReferencesRewritten(p, files[p], targets) else files[p]
    decreases |dylibs|
  {
    if dylibs != [] {
      var init := dylibs[..|dylibs| - 1];
      var last := dylibs[|dylibs| - 1];
      UpdatedPointwise(files, faults, init, targets);
      var mid := ReferencesUpdated(files, faults, init, targets);
      var after := ReferencesUpdated(files, faults, dylibs, targets);
      assert after == DylibUpdated(mid, faults, last, targets);
      forall p | p in files
        ensures after[p] == if Rewritable(files, faults, dylibs, p) then ReferencesRewritten(p, files[p], targets) else files[p]
      {
        assert p in dylibs <==> p in init || p == last;
        if p == last && CanInspect(files, faults, p) && CanEdit(files, faults, p) {
          RewriteIdempotent(p, files[p], targets);
        }
      }
    }
  }

  lemma {:induction false} UpdatedKeys(files: Files, faults: Faults, dylibs: seq<string>, targets: seq<string>)
    ensures ReferencesUpdated(files, faults, dylibs, targets).Keys == files.Keys
    ensures forall p :: p in files ==>
      CanInspect(ReferencesUpdated(files, faults, dylibs, targets), faults, p) == CanInspect(files, faults, p)
      && CanEdit(ReferencesUpdated(files, faults, dylibs, targets), faults, p) == CanEdit(files, faults, p)
    decreases |dylibs|
  {
    if dylibs != [] {
      UpdatedKeys(files, faults, dylibs[..|dylibs| - 1], targets);
    }
  }

  lemma UpdatedKeepsWellFormed(files: Files, faults: Faults, dylibs: seq<string>, targets: seq<string>)
    requires AllReferencesWellFormed(files)
    ensures var after := ReferencesUpdated(files, faults, dylibs, targets);
      && AllReferencesWellFormed(after)
      && (AllWellFormed(files) ==> AllWellFormed(after))
  {
    UpdatedPointwise(files, faults, dylibs, targets);
    forall p | p in files {
      RewriteReferences(p, files[p], targets);
    }
  }

  /**
   * Appending LC_RPATH entries after the loop does not give a second run of
   * the loop anything to do.
   */
  lemma UpdateAfterAppends(files: Files, faults: Faults, dylibs: seq<string>, targets: seq<string>, later: Files)
    requires AllReferencesWellFormed(files)
    requires AppendsOnly(ReferencesUpdated(files, faults, dylibs, targets), later)
    ensures ReferencesUpdated(later, faults, dylibs, targets) == later
  {
    var updated := ReferencesUpdated(files, faults, dylibs, targets);
    UpdatedPointwise(files, faults, dylibs, targets);
    UpdatedKeepsWellFormed(files, faults, dylibs, targets);
    assert AllReferencesWellFormed(later) by {
      forall p | p in later ensures ReferencesWellFormed(later[p]) {
        assert later[p].dependencies == updated[p].dependencies;
      }
    }
    UpdatedPointwise(later, faults, dylibs, targets);
    var again := ReferencesUpdated(later, faults, dylibs, targets);
    forall p | p in later ensures again[p] == later[p] {
      if Rewritable(later, faults, dylibs, p) {
        assert Rewritable(files, faults, dylibs, p);
        assert later[p] == updated[p].(rpaths := later[p].rpaths);
        RewrittenWithRpaths(p, files[p], targets, later[p].rpaths);
      }
    }
  }

  /** A rewritten library, whatever LC_RPATH entries it has since been given, is left alone by a second rewrite. */
  lemma RewrittenWithRpaths(path: string, b: Binary, targets: seq<string>, rpaths: seq<string>)
    requires ReferencesWellFormed(b)
    ensures var once := ReferencesRewritten(path, b, targets);
      ReferencesRewritten(path, once.(rpaths := rpaths), targets) == once.(rpaths := rpaths)
  {
    RewriteIgnoresRpaths(path, ReferencesRewritten(path, b, targets), targets, rpaths);
    RewriteIdempotent(path, b, targets);
  }

  // ---------------------------------------------------------------------
  // relink_and_delocate
  // ---------------------------------------------------------------------

  const ImageLibPrefix: string := "libOpenImageIO."
  const ColorLibPrefix: string := "libOpenColorIO."
  const ModuleSuffix: string := ".so"
  const LibSuffix: string := ".dylib"
  const TbbName: string := "libtbb.12.10.dylib"
  /** The names whose references are rewritten to `@loader_path`. */
  const Targets: seq<string> := ["libtbb", "libtbbmalloc", "libtbbmalloc_proxy", "libOpenImageIO", "libOpenColorIO", "libOpenImageIO_Util"]
  /** From a module in `OpenImageIO/` or `PyOpenColorIO/` to the `.dylibs` directory the wheel repair tool fills. */
  const StagingRpath: string := LoaderPath + "/../../.dylibs"

  /** What the selection raises and the catch-all handler reports: StopIteration from `next`, ValueError from `max`. */
  datatype Failure = NoModule(dir: Dir) | NoLibrary(prefix: string)

  datatype RelinkOutcome = Completed | MissingFile(path: string) | Unexpected(failure: Failure)

  datatype Run = Run(files: Files, outcome: RelinkOutcome)

  datatype Selection = Selected(required: seq<Located>) | NotSelected(failure: Failure)

  /** `libs_dir.glob("*.dylib")`: the paths of the matching entries, in listing order. */
  function DylibPaths(libs: seq<Entry>): (paths: seq<string>)
    ensures forall p :: p in paths <==>
      exists i :: 0 <= i < |libs| && GlobMatch(libs[i].name, "", LibSuffix) && p == PathOf(Located(LibsDir, libs[i].name))
    decreases |libs|
  {
    if libs == [] then []
    else
      var init := libs[..|libs| - 1];
      var last := libs[|libs| - 1];
      assert forall i :: 0 <= i < |init| ==> init[i] == libs[i];
      DylibPaths(init) + (if GlobMatch(last.name, "", LibSuffix) then [PathOf(Located(LibsDir, last.name))] else [])
  }

  /**
   * The five required files of `relink_and_delocate`, chosen in the order
   * the source evaluates them; the first selection that finds nothing
   * raises.
   */
  function Select(layout: Layout): (selection: Selection)
    ensures selection.NotSelected? <==>
      || FirstMatch(layout.imageModule, ModuleSuffix).None?
      || FirstMatch(layout.colorModule, ModuleSuffix).None?
      || Largest(layout.libs, ImageLibPrefix, LibSuffix).None?
      || Largest(layout.libs, ColorLibPrefix, LibSuffix).None?
    ensures selection.Selected? ==> |selection.required| == 5 && selection.required[4] == Located(LibsDir, TbbName)
  {
    match FirstMatch(layout.imageModule, ModuleSuffix)
    case None => NotSelected(NoModule(ImageModuleDir))
    case Some(image) =>
      match FirstMatch(layout.colorModule, ModuleSuffix)
      case None => NotSelected(NoModule(ColorModuleDir))
      case Some(color) =>
        match Largest(layout.libs, ImageLibPrefix, LibSuffix)
        case None => NotSelected(NoLibrary(ImageLibPrefix))
        case Some(imageLib) =>
          match Largest(layout.libs, ColorLibPrefix, LibSuffix)
          case None => NotSelected(NoLibrary(ColorLibPrefix))
          case Some(colorLib) =>
            Selected([Located(ImageModuleDir, layout.imageModule[image].name),
                      Located(ColorModuleDir, layout.colorModule[color].name),
                      Located(LibsDir, layout.libs[imageLib].name),
                      Located(LibsDir, layout.libs[colorLib].name),
                      Located(LibsDir, TbbName)])
  }

  /**
   * The selected modules match `*.so` in their directories, and the selected
   * libraries are the largest non-link matches of `libOpenImageIO.*.dylib`
   * and `libOpenColorIO.*.dylib`.
   */
  lemma SelectionMatchesGlobs(layout: Layout)
    requires Select(layout).Selected?
    ensures var required := Select(layout).required;
      && required[0].dir == ImageModuleDir && GlobMatch(required[0].name, "", ModuleSuffix)
      && required[1].dir == ColorModuleDir && GlobMatch(required[1].name, "", ModuleSuffix)
      && required[2].dir == LibsDir && required[3].dir == LibsDir
      && (exists i :: 0 <= i < |layout.libs| && layout.libs[i].name == required[2].name
            && Candidate(layout.libs[i], ImageLibPrefix, LibSuffix)
            && forall j :: 0 <= j < |layout.libs| && Candidate(layout.libs[j], ImageLibPrefix, LibSuffix) ==>
                 layout.libs[j].size <= layout.libs[i].size)
      && (exists i :: 0 <= i < |layout.libs| && layout.libs[i].name == required[3].name
            && Candidate(layout.libs[i], ColorLibPrefix, LibSuffix)
            && forall j :: 0 <= j < |layout.libs| && Candidate(layout.libs[j], ColorLibPrefix, LibSuffix) ==>
                 layout.libs[j].size <= layout.libs[i].size)
  {
    var imageLib := Largest(layout.libs, ImageLibPrefix, LibSuffix).value;
    var colorLib := Largest(layout.libs, ColorLibPrefix, LibSuffix).value;
    assert layout.libs[imageLib].name == Select(layout).required[2].name;
    assert layout.libs[colorLib].name == Select(layout).required[3].name;
  }

  /** The paths of the required files, in their order. */
  function PathsOf(required: seq<Located>): seq<string>
  {
    seq(|required|, i requires 0 <= i < |required| => PathOf(required[i]))
  }

  /** The three phases once every required file is there: rewrite the references, then the two rpath passes. */
  function Relinked(files: Files, faults: Faults, libs: seq<Entry>, binaries: seq<string>, modules: seq<string>): (after: Files)
    ensures after.Keys == files.Keys
  {
    var updated := ReferencesUpdated(files, faults, DylibPaths(libs), Targets);
    UpdatedKeys(files, faults, DylibPaths(libs), Targets);
    RpathsEnsured(RpathsEnsured(updated, faults, binaries, LoaderPath), faults, modules, StagingRpath)
  }

  /**
   * `relink_and_delocate`: select, check that all five are files, then
   * relink. Every failure is reported before anything is changed.
   */
  function Relink(files: Files, faults: Faults, layout: Layout): (run: Run)
    ensures run.outcome != Completed ==> run.files == files
    ensures run.outcome == Completed <==>
      Select(layout).Selected? && FirstMissingFile(layout, Select(layout).required).None?
  {
    match Select(layout)
    case NotSelected(failure) => Run(files, Unexpected(failure))
    case Selected(required) =>
      match FirstMissingFile(layout, required)
      case Some(missing) => Run(files, MissingFile(PathOf(required[missing])))
      case None =>
        var binaries := PathsOf(required);
        Run(Relinked(files, faults, layout.libs, binaries, binaries[..2]), Completed)
  }

  /** The three phases of a completed run, one after the other. */
  lemma RelinkPhases(files: Files, faults: Faults, layout: Layout)
    requires Relink(files, faults, layout).outcome == Completed
    ensures var binaries := PathsOf(Select(layout).required);
      && |binaries| == 5
      && Relink(files, faults, layout).files == Relinked(files, faults, layout.libs, binaries, binaries[..2])
  {
  }

  /**
   * The relinking phases keep every binary and install name, and change the
   * references of exactly the libraries both tools work on, as the rewrite
   * says.
   */
  lemma RelinkedRewritesReferences(files: Files, faults: Faults, libs: seq<Entry>, binaries: seq<string>, modules: seq<string>)
    requires AllReferencesWellFormed(files)
    ensures var after := Relinked(files, faults, libs, binaries, modules);
      && after.Keys == files.Keys
      && (forall p :: p in files ==> after[p].installName == files[p].installName)
      && (forall p :: p in files ==>
            after[p].dependencies ==
              if Rewritable(files, faults, DylibPaths(libs), p)
              then ReferencesRewritten(p, files[p], Targets).dependencies
              else files[p].dependencies)
  {
    var updated := ReferencesUpdated(files, faults, DylibPaths(libs), Targets);
    var first := RpathsEnsured(updated, faults, binaries, LoaderPath);
    UpdatedPointwise(files, faults, DylibPaths(libs), Targets);
    EnsureEffect(updated, faults, binaries, LoaderPath);
    EnsureEffect(first, faults, modules, StagingRpath);
  }

  /**
   * After the relinking phases each listed binary both tools work on shows
   * `@loader_path`, and each module shows the staging rpath, whatever failed
   * on the others.
   */
  lemma RelinkedAddsRpaths(files: Files, faults: Faults, libs: seq<Entry>, binaries: seq<string>, modules: seq<string>)
    ensures var after := Relinked(files, faults, libs, binaries, modules);
      && after.Keys == files.Keys
      && (forall b :: b in binaries && CanInspect(files, faults, b) && CanEdit(files, faults, b) ==>
            Contains(LoadCommands(b, after[b]), LoaderPath))
      && (forall b :: b in modules && CanInspect(files, faults, b) && CanEdit(files, faults, b) ==>
            Contains(LoadCommands(b, after[b]), StagingRpath))
  {
    var updated := ReferencesUpdated(files, faults, DylibPaths(libs), Targets);
    var first := RpathsEnsured(updated, faults, binaries, LoaderPath);
    var after := RpathsEnsured(first, faults, modules, StagingRpath);
    UpdatedKeys(files, faults, DylibPaths(libs), Targets);
    EnsureEffect(updated, faults, binaries, LoaderPath);
    EnsureEffect(first, faults, modules, StagingRpath);
    forall b | b in binaries ensures Settled(after, faults, b, LoaderPath) {
      SettledSurvivesAppends(first, after, faults, b, LoaderPath);
    }
  }

  /** No binary lists an LC_RPATH twice after the relinking phases. */
  lemma RelinkedKeepsWellFormed(files: Files, faults: Faults, libs: seq<Entry>, binaries: seq<string>, modules: seq<string>)
    requires AllWellFormed(files)
    ensures AllWellFormed(Relinked(files, faults, libs, binaries, modules))
  {
    var updated := ReferencesUpdated(files, faults, DylibPaths(libs), Targets);
    var first := RpathsEnsured(updated, faults, binaries, LoaderPath);
    assert AllReferencesWellFormed(files);
    UpdatedKeepsWellFormed(files, faults, DylibPaths(libs), Targets);
    EnsureKeepsWellFormed(updated, faults, binaries, LoaderPath);
    EnsureKeepsWellFormed(first, faults, modules, StagingRpath);
  }

  /** The relinking phases a second time change nothing. */
  lemma RelinkedIdempotent(files: Files, faults: Faults, libs: seq<Entry>, binaries: seq<string>, modules: seq<string>)
    requires AllReferencesWellFormed(files)
    ensures var once := Relinked(files, faults, libs, binaries, modules);
      Relinked(once, faults, libs, binaries, modules) == once
  {
    var dylibs := DylibPaths(libs);
    var updated := ReferencesUpdated(files, faults, dylibs, Targets);
    var first := RpathsEnsured(updated, faults, binaries, LoaderPath);
    var after := RpathsEnsured(first, faults, modules, StagingRpath);
    EnsureEffect(updated, faults, binaries, LoaderPath);
    EnsureEffect(first, faults, modules, StagingRpath);
    AppendsOnlyTransitive(updated, first, after);
    UpdateAfterAppends(files, faults, dylibs, Targets, after);
    forall b | b in binaries ensures Settled(after, faults, b, LoaderPath) {
      SettledSurvivesAppends(first, after, faults, b, LoaderPath);
    }
    EnsureSettledIsNoOp(after, faults, binaries, LoaderPath);
    EnsureSettledIsNoOp(after, faults, modules, StagingRpath);
  }

  /** Running the whole fixer a second time reports the same outcome and changes nothing more. */
  lemma RelinkIdempotent(files: Files, faults: Faults, layout: Layout)
    requires AllReferencesWellFormed(files)
    ensures var once := Relink(files, faults, layout);
      Relink(once.files, faults, layout) == once
  {
    if Relink(files, faults, layout).outcome == Completed {
      RelinkPhases(files, faults, layout);
      var binaries := PathsOf(Select(layout).required);
      RelinkedIdempotent(files, faults, layout.libs, binaries, binaries[..2]);
    }
  }
}
