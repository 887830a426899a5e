/**
 * The Mach-O metadata the relocation step reads and edits, and the two
 * inspection texts it reads it through: `otool -L` (one line per linked
 * library) and `otool -l` (the load commands).
 */
module MachO {
  import opened Optional
  import opened Text
  import opened Paths

  /**
   * One binary's load-time metadata: its LC_ID_DYLIB install name (absent
   * for a loadable bundle such as a Python extension module), its
   * LC_LOAD_DYLIB references and its LC_RPATH entries, in load-command order.
   */
  datatype Binary = Binary(installName: Option<string>, dependencies: seq<string>, rpaths: seq<string>)

  /** A reference as the dynamic linker records it: one token that names a file. */
  predicate IsReference(s: string)
  {
    IsToken(s) && Name(s) != []
  }

  /** What a linked binary looks like: references are tokens, and no LC_RPATH is repeated. */
  predicate WellFormed(b: Binary)
  {
    && (b.installName.Some? ==> IsReference(b.installName.value))
    && (forall i :: 0 <= i < |b.dependencies| ==> IsReference(b.dependencies[i]))
    && (forall i, j :: 0 <= i < j < |b.rpaths| ==> b.rpaths[i] != b.rpaths[j])
  }

  // ---- `otool -L <path>` ----

  /** The version numbers otool prints are not modelled; every line carries the same suffix. */
  const VersionSuffix: string := " (" + "compatibility version 0.0.0, current version 0.0.0)"

  function HeaderLine(path: string): string
  {
    path + ":"
  }

  /** One listed library: a tab, the reference, its versions. */
  function ReferenceLine(reference: string): string
  {
    "\t" + reference + VersionSuffix
  }

  function ReferenceLines(references: seq<string>): seq<string>
  {
    seq(|references|, i requires 0 <= i < |references| => ReferenceLine(references[i]))
  }

  lemma VersionSuffixStart()
    ensures |VersionSuffix| > 1 && IsSpace(VersionSuffix[0]) && VersionSuffix[1] == '('
  {
  }

  lemma HeaderLineHasToken(path: string)
    ensures FirstToken(HeaderLine(path)).Some?
  {
    HasFirstToken(HeaderLine(path), |path|);
  }

  /** The first token of a reference line is the reference, when the reference is one token. */
  lemma ReferenceLineToken(reference: string)
    ensures FirstToken(ReferenceLine(reference)).Some?
    ensures IsToken(reference) ==> FirstToken(ReferenceLine(reference)) == Some(reference)
  {
    var line := ReferenceLine(reference);
    VersionSuffixStart();
    assert line[|reference| + 2] == VersionSuffix[1];
    HasFirstToken(line, |reference| + 2);
    if IsToken(reference) {
      FirstTokenOf("\t", reference, VersionSuffix);
    }
  }

  /** The lines of `otool -L`: the file's own path, then its install name (if any), then each reference. */
  function LibraryListing(path: string, b: Binary): seq<string>
  {
    [HeaderLine(path)]
    + (if b.installName.Some? then [ReferenceLine(b.installName.value)] else [])
    + ReferenceLines(b.dependencies)
  }

  /** Every line otool -L prints has a first token, so `line.split()[0]` never raises there. */
  lemma ListingLinesHaveTokens(path: string, b: Binary)
    ensures forall i :: 0 <= i < |LibraryListing(path, b)| ==> FirstToken(LibraryListing(path, b)[i]).Some?
  {
    var lines := LibraryListing(path, b);
    var offset := if b.installName.Some? then 2 else 1;
    forall i | 0 <= i < |lines| ensures FirstToken(lines[i]).Some? {
      if i == 0 {
        HeaderLineHasToken(path);
      } else if i < offset {
        ReferenceLineToken(b.installName.value);
      } else {
        assert lines[i] == ReferenceLine(b.dependencies[i - offset]);
        ReferenceLineToken(b.dependencies[i - offset]);
      }
    }
  }

  /**
   * The lines of the listing, by what they show: the header, the install
   * name line, and the line of dependency `k`, whose first token is the
   * reference itself when it is a token.
   */
  lemma ListingLayout(path: string, b: Binary)
    ensures LibraryListing(path, b)[0] == HeaderLine(path)
    ensures forall k :: 0 <= k < |b.dependencies| ==> ReferenceLine(b.dependencies[k]) in LibraryListing(path, b)
    ensures forall line :: line in LibraryListing(path, b) ==>
      || line == HeaderLine(path)
      || (b.installName.Some? && line == ReferenceLine(b.installName.value))
      || exists k :: 0 <= k < |b.dependencies| && line == ReferenceLine(b.dependencies[k])
  {
    var lines := LibraryListing(path, b);
    var offset := if b.installName.Some? then 2 else 1;
    forall k | 0 <= k < |b.dependencies| ensures ReferenceLine(b.dependencies[k]) in lines {
      assert lines[offset + k] == ReferenceLine(b.dependencies[k]);
    }
    forall line | line in lines
      ensures || line == HeaderLine(path)
              || (b.installName.Some? && line == ReferenceLine(b.installName.value))
              || exists k :: 0 <= k < |b.dependencies| && line == ReferenceLine(b.dependencies[k])
    {
      var i :| 0 <= i < |lines| && lines[i] == line;
      if i >= offset {
        assert line == ReferenceLine(b.dependencies[i - offset]);
      }
    }
  }

  // ---- `otool -l <path>` ----

  const IdLabel: string := "          cmd LC_ID_DYLIB\n         name "
  const DylibLabel: string := "          cmd LC_LOAD_DYLIB\n         name "
  const RpathLabel: string := "          cmd LC_RPATH\n         path "
  const NameOffset: string := " (offset 24)\n"
  const PathOffset: string := " (offset 12)\n"

  function IdCommand(installName: Option<string>): string
  {
    match installName
    case None => ""
    case Some(name) => IdLabel + name + NameOffset
  }

  function DylibCommand(reference: string): string
  {
    DylibLabel + reference + NameOffset
  }

  function RpathCommand(rpath: string): string
  {
    RpathLabel + rpath + PathOffset
  }

  function DylibCommands(references: seq<string>): string
    decreases |references|
  {
    if references == [] then ""
    else DylibCommands(references[..|references| - 1]) + DylibCommand(references[|references| - 1])
  }

  function RpathCommands(rpaths: seq<string>): string
    decreases |rpaths|
  {
    if rpaths == [] then ""
    else RpathCommands(rpaths[..|rpaths| - 1]) + RpathCommand(rpaths[|rpaths| - 1])
  }

  /**
   * The text of `otool -l`, reduced to the load commands that carry strings:
   * LC_ID_DYLIB, then each LC_LOAD_DYLIB, then each LC_RPATH
   * (`install_name_tool -add_rpath` appends its command after the others).
   */
  function LoadCommands(path: string, b: Binary): string
  {
    path + ":\n" + IdCommand(b.installName) + DylibCommands(b.dependencies) + RpathCommands(b.rpaths)
  }

  lemma {:induction false} RpathCommandsAppend(rpaths: seq<string>, more: seq<string>)
    ensures RpathCommands(rpaths + more) == RpathCommands(rpaths) + RpathCommands(more)
    decreases |more|
  {
    if more == [] {
      assert rpaths + more == rpaths;
    } else {
      var init := more[..|more| - 1];
      var last := more[|more| - 1];
      assert (rpaths + more)[..|rpaths + more| - 1] == rpaths + init;
      assert (rpaths + more)[|rpaths + more| - 1] == last;
      calc {
        RpathCommands(rpaths + more);
        RpathCommands(rpaths + init) + RpathCommand(last);
        { RpathCommandsAppend(rpaths, init); }
        (RpathCommands(rpaths) + RpathCommands(init)) + RpathCommand(last);
        { Regroup(RpathCommands(rpaths), RpathCommands(init), RpathCommand(last)); }
        RpathCommands(rpaths) + RpathCommands(more);
      }
    }
  }

  /** Appending LC_RPATH entries appends to the text, so anything present stays present. */
  lemma AppendRpathsExtendsText(path: string, b: Binary, more: seq<string>)
    ensures LoadCommands(path, b.(rpaths := b.rpaths + more))
         == LoadCommands(path, b) + RpathCommands(more)
  {
    var head := path + ":\n" + IdCommand(b.installName) + DylibCommands(b.dependencies);
    RpathCommandsAppend(b.rpaths, more);
    Regroup(head, RpathCommands(b.rpaths), RpathCommands(more));
  }

  lemma {:induction false} RpathCommandsShowEntries(rpaths: seq<string>, k: nat)
    requires k < |rpaths|
    ensures Contains(RpathCommands(rpaths), rpaths[k])
    decreases |rpaths|
  {
    var init := rpaths[..|rpaths| - 1];
    var last := rpaths[|rpaths| - 1];
    if k == |rpaths| - 1 {
      ContainsInfix(RpathCommands(init) + RpathLabel, last, PathOffset);
      assert RpathCommands(rpaths) == RpathCommands(init) + RpathLabel + last + PathOffset;
    } else {
      RpathCommandsShowEntries(init, k);
      ContainsExtendRight(RpathCommands(init), rpaths[k], RpathCommand(last));
    }
  }

  lemma {:induction false} DylibCommandsShowEntries(references: seq<string>, k: nat)
    requires k < |references|
    ensures Contains(DylibCommands(references), references[k])
    decreases |references|
  {
    var init := references[..|references| - 1];
    var last := references[|references| - 1];
    if k == |references| - 1 {
      ContainsInfix(DylibCommands(init) + DylibLabel, last, NameOffset);
      assert DylibCommands(references) == DylibCommands(init) + DylibLabel + last + NameOffset;
    } else {
      DylibCommandsShowEntries(init, k);
      ContainsExtendRight(DylibCommands(init), references[k], DylibCommand(last));
    }
  }

  /** An LC_RPATH entry always appears in the `otool -l` text. */
  lemma ListedRpathIsPresent(path: string, b: Binary, rpath: string)
    requires rpath in b.rpaths
    ensures Contains(LoadCommands(path, b), rpath)
  {
    var k :| 0 <= k < |b.rpaths| && b.rpaths[k] == rpath;
    RpathCommandsShowEntries(b.rpaths, k);
    ContainsExtendLeft(path + ":\n" + IdCommand(b.installName) + DylibCommands(b.dependencies), RpathCommands(b.rpaths), rpath);
  }

  /** So does every LC_LOAD_DYLIB reference. */
  lemma ListedDependencyIsPresent(path: string, b: Binary, k: nat)
    requires k < |b.dependencies|
    ensures Contains(LoadCommands(path, b), b.dependencies[k])
  {
    DylibCommandsShowEntries(b.dependencies, k);
    ContainsExtendLeft(path + ":\n" + IdCommand(b.installName), DylibCommands(b.dependencies), b.dependencies[k]);
    ContainsExtendRight(path + ":\n" + IdCommand(b.installName) + DylibCommands(b.dependencies), b.dependencies[k], RpathCommands(b.rpaths));
  }

  /**
   * "Present" in the `otool -l` text is not "an LC_RPATH entry": a binary
   * with a reference already rewritten to `@loader_path/<file>` shows
   * `@loader_path` in its text whatever its LC_RPATH entries are.
   */
  lemma RewrittenReferenceLooksLikeRpath(path: string, b: Binary, k: nat)
    requires k < |b.dependencies| && StartsWith(b.dependencies[k], LoaderPath)
    ensures Contains(LoadCommands(path, b), LoaderPath)
  {
    ListedDependencyIsPresent(path, b, k);
    ContainsStartOf(LoadCommands(path, b), b.dependencies[k], LoaderPath);
  }

  // ---- the edits install_name_tool makes ----

  /** `install_name_tool -change from to`: every LC_LOAD_DYLIB naming `from` now names `to`; no match, no change. */
  function ChangeDependency(b: Binary, from: string, to: string): (changed: Binary)
    ensures changed.installName == b.installName && changed.rpaths == b.rpaths
    ensures |changed.dependencies| == |b.dependencies|
    ensures from != to ==> from !in changed.dependencies
    ensures from in b.dependencies ==> to in changed.dependencies
  {
    var changed := b.(dependencies := seq(|b.dependencies|, i requires 0 <= i < |b.dependencies| =>
      if b.dependencies[i] == from then to else b.dependencies[i]));
    assert from in b.dependencies ==> to in changed.dependencies by {
      if from in b.dependencies {
        var k :| 0 <= k < |b.dependencies| && b.dependencies[k] == from;
        assert changed.dependencies[k] == to;
      }
    }
    changed
  }

  /** `-change` brings in no name but `to`, and with no reference naming `from` it changes nothing. */
  lemma ChangeDependencyAddsOnlyTarget(b: Binary, from: string, to: string)
    ensures forall d :: d in ChangeDependency(b, from, to).dependencies ==> d == to || d in b.dependencies
    ensures from !in b.dependencies ==> ChangeDependency(b, from, to) == b
  {
    var changed := ChangeDependency(b, from, to);
    forall d | d in changed.dependencies ensures d == to || d in b.dependencies {
      var k :| 0 <= k < |changed.dependencies| && changed.dependencies[k] == d;
      assert d == to || d == b.dependencies[k];
    }
    if from !in b.dependencies {
      assert changed.dependencies == b.dependencies;
    }
  }

  /** `install_name_tool -add_rpath`: appends an LC_RPATH, and refuses one the binary already has. */
  function AddRpath(b: Binary, rpath: string): (added: Option<Binary>)
    ensures WellFormed(b) && added.Some? ==> WellFormed(added.value)
  {
    if rpath in b.rpaths then None else Some(b.(rpaths := b.rpaths + [rpath]))
  }
}
