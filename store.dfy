/**
 * The macOS fixer as it runs: a store of binaries that `otool` reads and
 * `install_name_tool` edits in place, and the four procedures of the fixer
 * as methods on it, each proved to do what the functions of `Relocation`
 * say.
 */
module Store {
  import opened Optional
  import opened Text
  import opened Paths
  import opened MachO
  import opened Staging
  import opened Relocation

  /** The binaries under `oiio_python/`, keyed by path, and the paths the tools fail on. */
  class BinaryStore {
    var files: Files
    const faults: Faults

    constructor (files: Files, faults: Faults)
      ensures this.files == files && this.faults == faults
    {
      this.files := files;
      this.faults := faults;
    }

    /** `otool -L <path>`: the lines it prints, or None when it fails. */
    method ListLibraries(path: string) returns (lines: Option<seq<string>>)
      ensures lines.Some? <==> CanInspect(files, faults, path)
      ensures lines.Some? ==> lines.value == LibraryListing(path, files[path])
    {
      if path in files && path !in faults.unreadable {
        lines := Some(LibraryListing(path, files[path]));
      } else {
        lines := None;
      }
    }

    /** `otool -l <path>`: the load-commands text, or None when it fails. */
    method ReadLoadCommands(path: string) returns (text: Option<string>)
      ensures text.Some? <==> CanInspect(files, faults, path)
      ensures text.Some? ==> text.value == LoadCommands(path, files[path])
    {
      if path in files && path !in faults.unreadable {
        text := Some(LoadCommands(path, files[path]));
      } else {
        text := None;
      }
    }

    /** `install_name_tool -change from to <path>`: a reference not there is no error. */
    method ChangeReference(path: string, from: string, to: string) returns (ok: bool)
      modifies this`files
      ensures ok <==> CanEdit(old(files), faults, path)
      ensures ok ==> files == old(files)[path := ChangeDependency(old(files)[path], from, to)]
      ensures !ok ==> files == old(files)
    {
      if path in files && path !in faults.unwritable {
        files := files[path := ChangeDependency(files[path], from, to)];
        ok := true;
      } else {
        ok := false;
      }
    }

    /** `install_name_tool -add_rpath rpath <path>`: refuses an LC_RPATH the binary already has. */
    method AppendRpath(path: string, rpath: string) returns (ok: bool)
      modifies this`files
      ensures ok <==> CanEdit(old(files), faults, path) && AddRpath(old(files)[path], rpath).Some?
      ensures ok ==> files == old(files)[path := AddRpath(old(files)[path], rpath).value]
      ensures !ok ==> files == old(files)
    {
      if path in files && path !in faults.unwritable {
        var added := AddRpath(files[path], rpath);
        if added.Some? {
          files := files[path := added.value];
          ok := true;
          return;
        }
      }
      ok := false;
    }

    /** `check_and_add_rpath`: adds `rpath` unless it already occurs in the `otool -l` text. */
    method CheckAndAddRpath(path: string, rpath: string) returns (outcome: RpathOutcome)
      modifies this`files
      ensures Step(files, outcome) == CheckAndAdd(old(files), faults, path, rpath)
    {
      var text := ReadLoadCommands(path);
      if text.None? {
        return Failed;
      }
      if Contains(text.value, rpath) {
        return AlreadyPresent;
      }
      var ok := AppendRpath(path, rpath);
      outcome := if ok then Added else Failed;
    }

    /** `ensure_rpaths`: one `check_and_add_rpath` per binary, in order; `outcomes` are the messages it prints. */
    method EnsureRpaths(binaries: seq<string>, rpath: string) returns (outcomes: seq<RpathOutcome>)
      modifies this`files
      ensures files == RpathsEnsured(old(files), faults, binaries, rpath)
      ensures outcomes == RpathOutcomes(old(files), faults, binaries, rpath)
    {
      outcomes := [];
      var i := 0;
      while i < |binaries|
        invariant 0 <= i <= |binaries|
        invariant files == RpathsEnsured(old(files), faults, binaries[..i], rpath)
        invariant outcomes == RpathOutcomes(old(files), faults, binaries[..i], rpath)
      {
        assert binaries[..i + 1][..i] == binaries[..i];
        var outcome := CheckAndAddRpath(binaries[i], rpath);
        outcomes := outcomes + [outcome];
        i := i + 1;
      }
      assert binaries[..i] == binaries;
    }

    /**
     * The innermost loop of `update_rpath_references`, over the target names
     * for one line of `otool -L`: for each name the line contains, change the
     * line's first word to `@loader_path/<its file name>`. A failing
     * `install_name_tool` ends it.
     */
    method RewriteLine(dylib: string, line: string, targets: seq<string>) returns (ok: bool)
      requires FirstToken(line).Some?
      modifies this`files
      ensures files == Edited(old(files), faults, dylib, LineChanges(line, targets))
      ensures ok <==> CanEdit(old(files), faults, dylib) || LineChanges(line, targets) == []
    {
      ghost var editable := CanEdit(files, faults, dylib);
      ghost var done: seq<string> := [];
      // The first word and its rewrite depend on the line only, so they are the same for every target.
      var oldPath := FirstToken(line).value;
      var newPath := LoaderPathReference(oldPath);
      ok := true;
      var j := 0;
      while j < |targets| && ok
        invariant 0 <= j <= |targets|
        invariant done == LineChanges(line, targets[..j])
        invariant files == Edited(old(files), faults, dylib, done)
        invariant ok <==> editable || done == []
      {
        LineChangesStep(line, targets, j);
        if Contains(line, targets[j]) {
          EditedStep(old(files), faults, dylib, done, oldPath);
          done := done + [oldPath];
          ok := ChangeReference(dylib, oldPath, newPath);
        }
        j := j + 1;
      }
      if ok {
        assert targets[..j] == targets;
      } else {
        LineChangesPrefix(line, targets, j);
      }
    }

    /**
     * The loop of `update_rpath_references` over the lines of one library's
     * `otool -L` output; the first failing `install_name_tool` ends the work
     * on this library.
     */
    method RewriteLines(dylib: string, lines: seq<string>, targets: seq<string>) returns (ok: bool)
      requires HasTokens(lines)
      modifies this`files
      ensures files == Edited(old(files), faults, dylib, ListingChanges(lines, targets))
      ensures ok <==> CanEdit(old(files), faults, dylib) || ListingChanges(lines, targets) == []
    {
      ghost var editable := CanEdit(files, faults, dylib);
      ok := true;
      var i := 0;
      while i < |lines| && ok
        invariant 0 <= i <= |lines|
        invariant HasTokens(lines[..i])
        invariant files == Edited(old(files), faults, dylib, ListingChanges(lines[..i], targets))
        invariant ok <==> editable || ListingChanges(lines[..i], targets) == []
      {
        ListingChangesStep(lines, i, targets);
        EditedAppend(old(files), faults, dylib, ListingChanges(lines[..i], targets), LineChanges(lines[i], targets));
        ok := RewriteLine(dylib, lines[i], targets);
        i := i + 1;
      }
      if ok {
        assert lines[..i] == lines;
      } else {
        ListingChangesPrefix(lines, i, targets);
      }
    }

    /**
     * The body of the loop of `update_rpath_references` for one library: run
     * `otool -L`, then rewrite its lines; `ok` is false when a tool failed
     * and an error was reported.
     */
    method UpdateDylibReferences(dylib: string, targets: seq<string>) returns (ok: bool)
      modifies this`files
      ensures files == DylibUpdated(old(files), faults, dylib, targets)
      ensures ok == DylibSucceeds(old(files), faults, dylib, targets)
    {
      var listing := ListLibraries(dylib);
      if listing.None? {
        return false;
      }
      ListingLinesHaveTokens(dylib, files[dylib]);
      ok := RewriteLines(dylib, listing.value, targets);
    }

    /** `update_rpath_references`: every `*.dylib` of the library directory, in glob order; `processed[i]` is false where an error was reported. */
    method UpdateRpathReferences(libs: seq<Entry>, targets: seq<string>) returns (processed: seq<bool>)
      modifies this`files
      ensures files == ReferencesUpdated(old(files), faults, DylibPaths(libs), targets)
      ensures processed == Processed(old(files), faults, DylibPaths(libs), targets)
    {
      var dylibs := DylibPaths(libs);
      processed := [];
      var i := 0;
      while i < |dylibs|
        invariant 0 <= i <= |dylibs|
        invariant files == ReferencesUpdated(old(files), faults, dylibs[..i], targets)
        invariant processed == Processed(old(files), faults, dylibs[..i], targets)
      {
        assert dylibs[..i + 1][..i] == dylibs[..i];
        var ok := UpdateDylibReferences(dylibs[i], targets);
        processed := processed + [ok];
        i := i + 1;
      }
      assert dylibs[..i] == dylibs;
    }

    /**
     * `relink_and_delocate`: select the two modules and the two largest
     * libraries, check the five required files, rewrite the references of
     * the libraries, then add `@loader_path` to all five and the staging
     * rpath to the two modules.
     */
    method RelinkAndDelocate(layout: Layout) returns (outcome: RelinkOutcome)
      modifies this`files
      ensures Run(files, outcome) == Relink(old(files), faults, layout)
    {
      var image := FirstMatch(layout.imageModule, ModuleSuffix);
      if image.None? {
        return Unexpected(NoModule(ImageModuleDir));
      }
      var color := FirstMatch(layout.colorModule, ModuleSuffix);
      if color.None? {
        return Unexpected(NoModule(ColorModuleDir));
      }
      var imageLib := Largest(layout.libs, ImageLibPrefix, LibSuffix);
      if imageLib.None? {
        return Unexpected(NoLibrary(ImageLibPrefix));
      }
      var colorLib := Largest(layout.libs, ColorLibPrefix, LibSuffix);
      if colorLib.None? {
        return Unexpected(NoLibrary(ColorLibPrefix));
      }
      var required := [Located(ImageModuleDir, layout.imageModule[image.value].name),
                       Located(ColorModuleDir, layout.colorModule[color.value].name),
                       Located(LibsDir, layout.libs[imageLib.value].name),
                       Located(LibsDir, layout.libs[colorLib.value].name),
                       Located(LibsDir, TbbName)];
      assert Select(layout) == Selected(required);
      var missing := CheckRequiredFiles(layout, required);
      if missing.Some? {
        return MissingFile(PathOf(required[missing.value]));
      }
      var binaries := PathsOf(required);
      var processed := UpdateRpathReferences(layout.libs, Targets);
      var loaderOutcomes := EnsureRpaths(binaries, LoaderPath);
      var stagingOutcomes := EnsureRpaths(binaries[..2], StagingRpath);
      outcome := Completed;
    }
  }
}
