# Relinking the bundled libraries of the OpenImageIO wheel, and the Conan build helpers

This project models, in Dafny, two parts of the build tooling that packages
OpenImageIO and OpenColorIO as a Python wheel, and proves properties of
those models.

- **The macOS relinking script** exists in two copies:
  `setuputils/macos_fix_shared_libs.py` and the near-identical root
  `macos_fix_shared_libs.py`. The copies differ in their
  project-directory variable (`project` in one, `here` in the other), in
  layout and in their docstrings, but not in what they do, so one model
  covers both. The root copy has no module docstring, one-line docstrings
  for its check and ensure functions (root :7, :41) and none for
  `relink_and_delocate`; the docstrings quoted below are those of the
  `setuputils` copy. The script:
  - rewrites the references of the staged `*.dylib` files that name one of
    the bundled libraries to `@loader_path/<file name>`
    (`update_rpath_references`);
  - adds the LC_RPATH search-path entries that the two extension modules and
    the three core libraries need (`check_and_add_rpath`, `ensure_rpaths`);
  - runs all of this after selecting and checking the five required files
    (`relink_and_delocate`).
- **The Conan helpers of `setuputils/build_utils.py`**:
  - `conan_profile_ensure`: profile detection, then the rewrite of every
    `compiler.cppstd` line of the default profile into a new profile file;
  - `conan_install_package`: the four Conan command lines it builds, and the
    order in which it runs them.

## How the model is built

- **optional.dfy** defines `Option`.
- **text.dfy** models the parts of Python's `str` the scripts rely on:
  - `isspace`, `startswith`/`endswith` and the `in` substring test;
  - `split()[0]`, `splitlines()`, `strip()` and `"\n".join`.
- **paths.dfy** models `Path(p).name` and the `@loader_path/<name>`
  reference the rewrite installs.
- **macho.dfy** models a binary as the three things the tools see:
  - its install name (LC_ID_DYLIB);
  - its references (LC_LOAD_DYLIB);
  - its LC_RPATH entries.

  It also renders what `otool -L` prints (a header line `<path>:`, then one
  line per reference) and the `otool -l` text, where every entry appears
  behind its load-command label. It models the two edits
  `install_name_tool` makes: `-change` and `-add_rpath`.
- **staging.dfy** models the directory listings the script globs. It also
  models these selections:
  - `next(glob("*.so"))`;
  - `max(..., key=size)` over the non-link matches;
  - the required-file check.
- **relocation.dfy** holds the specification functions of the script and
  their lemmas. The files on disk are a map from path to binary.
  - `Faults` names the paths where `otool` or `install_name_tool` exits
    non-zero.
  - A path absent from the map is one no tool can read.
- **store.dfy** holds `BinaryStore`, a class whose `files` field the tool
  calls update in place. It gives one method per function of the script, each
  proved to leave exactly the state the specification function describes.
- **build_utils.dfy** holds the cppstd rewrite and the Conan command lines.
  Its `CommandRunner` class records every command started. Which commands
  exit non-zero, and what the others print, are its parameters.

A failing tool, an exception, or the message the script prints is modelled as
a value:
- `RpathOutcome`, `RelinkOutcome`;
- the `processed` flags of `UpdateRpathReferences`;
- `None` for what Python raises (StopIteration from `next`, ValueError from
  `max`, IndexError from `split()[0]`, CalledProcessError from a check).

### Where the docstrings and the code differ

The model follows the code in each case.

- **"Exists" is a substring test.** The docstring of `check_and_add_rpath`
  (`setuputils/macos_fix_shared_libs.py:19`) promises to check whether an
  LC_RPATH entry exists and to add it if missing. The docstring of
  `ensure_rpaths` (:85) says the specified LC_RPATH will exist. The code at
  :35 only asks whether the rpath occurs anywhere in the whole `otool -l`
  text.
  - A library whose references were already rewritten to
    `@loader_path/...` therefore shows `@loader_path` in its text and never
    receives an `@loader_path` LC_RPATH
    (`Relocation.RewrittenLibraryGetsNoLoaderPathRpath`).
  - What the model proves is what the code gives: the rpath is never added
    twice (`Relocation.EnsureKeepsWellFormed`), and afterwards every binary
    both tools work on shows the rpath somewhere in its text.
- **"`@rpath` references" are any line naming a target.** The docstring of
  `update_rpath_references` (:48) speaks of updating `@rpath` references.
  The code at :65-67 rewrites the first word of every `otool -L` line that
  contains a target name, whatever its prefix. That includes the header line
  `<path>:` and the install-name line.
  - For the header line, the `-change` is a no-op, because no reference has
    that name.
  - The install name is not changed either, because `-change` does not touch
    LC_ID_DYLIB.

### The root copy

Each `Model` row below cites the `setuputils` copy. The same members model
the root copy `macos_fix_shared_libs.py`:

| function | setuputils copy | root copy |
|---|---|---|
| `check_and_add_rpath` | lines 17-43 | lines 6-20 |
| `update_rpath_references` | lines 46-80 | lines 22-38 |
| `ensure_rpaths` | lines 83-95 | lines 40-43 |
| `relink_and_delocate` | lines 98-163 | lines 45-84 |

Within each function the root copy has the same statements in the same
order, so the models carry over line for line.

## Model

| member | source | states |
|---|---|---|
| Store.BinaryStore.ListLibraries | setuputils/macos_fix_shared_libs.py:60-63 | `otool -L` fails exactly when the tool cannot read the binary; otherwise it returns the header line followed by one line per install name and reference |
| Store.BinaryStore.ReadLoadCommands | setuputils/macos_fix_shared_libs.py:29-34 | `otool -l` fails exactly when the tool cannot read the binary; otherwise it returns the binary's load-command text |
| Store.BinaryStore.ChangeReference | setuputils/macos_fix_shared_libs.py:68-77 | `install_name_tool -change` succeeds exactly when the binary is writable. It then replaces every reference equal to the old name; on failure it changes nothing |
| Store.BinaryStore.AppendRpath | setuputils/macos_fix_shared_libs.py:38-40 | `-add_rpath` succeeds exactly when the binary is writable and lacks that LC_RPATH. It then appends the entry; otherwise it changes nothing |
| Store.BinaryStore.CheckAndAddRpath | setuputils/macos_fix_shared_libs.py:17-43 | one `check_and_add_rpath` leaves exactly the state and message `Relocation.CheckAndAdd` gives |
| Relocation.CheckAndAdd | setuputils/macos_fix_shared_libs.py:17-43 | one `check_and_add_rpath` on the store keeps every path and changes no other binary. It changes nothing unless it reports an addition (what it adds is stated by `Relocation.CheckAndAddEffect`) |
| Relocation.CheckAndAddEffect | setuputils/macos_fix_shared_libs.py:35-43 | the rpath is added iff both tools work and the rpath is not yet in the `otool -l` text. "Already exists" is reported iff it is in the text. An add appends exactly one LC_RPATH and changes nothing else. Afterwards the binary is settled |
| Relocation.CheckAndAddTwice | setuputils/macos_fix_shared_libs.py:35-41 | a second call right after the first reports no addition and changes nothing |
| Relocation.PresentMeansUntouched | setuputils/macos_fix_shared_libs.py:35-36 | a readable binary whose text already contains the rpath is left alone, with the "already exists" message |
| MachO.ListedRpathIsPresent | setuputils/macos_fix_shared_libs.py:35 | every LC_RPATH entry occurs in the `otool -l` text, so the duplicate refusal of `-add_rpath` is never reached |
| MachO.RewrittenReferenceLooksLikeRpath | setuputils/macos_fix_shared_libs.py:35 | a reference starting with `@loader_path` makes `@loader_path` occur in the text, whatever the LC_RPATH entries are |
| Relocation.RewrittenLibraryGetsNoLoaderPathRpath | setuputils/macos_fix_shared_libs.py:35-36 | so a library with a rewritten reference is reported as already having `@loader_path` and is not changed |
| Relocation.CheckAndAddKeepsWellFormed | setuputils/macos_fix_shared_libs.py:38-40 | no call ever gives a binary the same LC_RPATH twice |
| MachO.AddRpath | setuputils/macos_fix_shared_libs.py:39 | `-add_rpath` keeps the LC_RPATH list free of duplicates |
| Store.BinaryStore.EnsureRpaths | setuputils/macos_fix_shared_libs.py:83-95 | the loop leaves exactly the state `Relocation.RpathsEnsured` describes and prints the messages `Relocation.RpathOutcomes` lists |
| Relocation.RpathsEnsured | setuputils/macos_fix_shared_libs.py:83-95 | `ensure_rpaths` as a fold of `CheckAndAdd` in list order. It keeps every path, and binaries not listed are untouched |
| Relocation.RpathOutcomes | setuputils/macos_fix_shared_libs.py:94-95 | one message per listed binary, in order (which message is stated by `Relocation.RpathOutcomesReport`) |
| Relocation.RpathOutcomesReport | setuputils/macos_fix_shared_libs.py:94-95 | the message for the i-th binary is decided by the state the binaries before it left |
| Relocation.EnsureEffect | setuputils/macos_fix_shared_libs.py:83-95 | afterwards every listed binary is settled (a tool fails on it, or the rpath is in its text). Each binary is unchanged, or a listed one gains exactly the one LC_RPATH. Install names and references never change, and binaries not listed are untouched |
| Relocation.SettledSurvivesAppends | setuputils/macos_fix_shared_libs.py:94-95 | a later binary's additions do not unsettle an earlier one |
| Relocation.EnsureSettledIsNoOp | setuputils/macos_fix_shared_libs.py:94-95 | when every listed binary is settled, the loop changes nothing |
| Relocation.EnsureIdempotent | setuputils/macos_fix_shared_libs.py:83-95 | a second `ensure_rpaths` with the same arguments changes nothing |
| Relocation.EnsureKeepsWellFormed | setuputils/macos_fix_shared_libs.py:94-95 | after the loop, no binary lists an LC_RPATH twice |
| Relocation.LineChangesMembers | setuputils/macos_fix_shared_libs.py:64-66 | a line yields its first word as a `-change` source, and nothing else, exactly when it contains some target name |
| Relocation.LineChanges | setuputils/macos_fix_shared_libs.py:64-66 | no contract of its own: the first word of the line once per target name it contains. Its members are stated by `Relocation.LineChangesMembers` |
| Relocation.ListingChanges | setuputils/macos_fix_shared_libs.py:63-66 | no contract of its own: the sources of each line in turn. Its members are stated by `Relocation.ListingChangesMembers` |
| Relocation.ChangesOf | setuputils/macos_fix_shared_libs.py:60-66 | no contract of its own: the sources of one library's `otool -L` output, characterised by `Relocation.ChangesOfMembers` and `Relocation.ChangesOfSources` |
| Relocation.ListingChangesMembers | setuputils/macos_fix_shared_libs.py:63-66 | the sources of a listing are exactly the first words of its lines that contain a target name |
| MachO.ListingLinesHaveTokens | setuputils/macos_fix_shared_libs.py:66 | every line `otool -L` prints has a first word, so `line.split()[0]` never raises IndexError |
| MachO.LibraryListing | setuputils/macos_fix_shared_libs.py:60-63 | no contract of its own: what `otool -L` prints, that is, the header `<path>:`, the install-name line (if any), then one line per reference. `MachO.ListingLayout` states this line by line |
| MachO.ListingLayout | setuputils/macos_fix_shared_libs.py:60-63 | the first line is the header, every reference has its line, and every line is the header, the install-name line or a reference line |
| MachO.LoadCommands | setuputils/macos_fix_shared_libs.py:29-35 | no contract of its own: the `otool -l` text, that is, the path, then LC_ID_DYLIB, each LC_LOAD_DYLIB and each LC_RPATH behind its label. `MachO.ListedRpathIsPresent` and `MachO.ListedDependencyIsPresent` state what occurs in it |
| MachO.ListedDependencyIsPresent | setuputils/macos_fix_shared_libs.py:35 | every LC_LOAD_DYLIB reference occurs in the `otool -l` text |
| MachO.AppendRpathsExtendsText | setuputils/macos_fix_shared_libs.py:38-40 | after `-add_rpath` the `otool -l` text is the old text followed by the new LC_RPATH commands |
| Relocation.ChangesOfMembers | setuputils/macos_fix_shared_libs.py:60-66 | the sources found in one library's `otool -L` output are exactly the first words of its matching lines |
| Text.FirstToken | setuputils/macos_fix_shared_libs.py:66 | `line.split()[0]` is a run of non-space characters, and is absent (IndexError) exactly when the line is blank |
| Text.Contains | setuputils/macos_fix_shared_libs.py:35 | no contract of its own: Python's `needle in s`, a match at the start or in the rest. `Text.ContainsInfix` states that it finds any embedded string |
| Text.ContainsInfix | setuputils/macos_fix_shared_libs.py:35 | Python's `in`: a string occurs in any string that embeds it |
| Relocation.ChangesOfSources | setuputils/macos_fix_shared_libs.py:63-66 | every source is the header's first word, the install name, or a reference, each from a line containing a target name |
| Relocation.MatchedAreSources | setuputils/macos_fix_shared_libs.py:63-66 | conversely, every reference whose line contains a target name is a source |
| Relocation.HeaderIsSource | setuputils/macos_fix_shared_libs.py:63-66 | the header line `<path>:` is matched too: its first word is a source when the line contains a target name |
| Relocation.IdIsSource | setuputils/macos_fix_shared_libs.py:63-66 | the install name is a source when its line contains a target name |
| Paths.LoaderPathReference | setuputils/macos_fix_shared_libs.py:67 | the new reference starts with `@loader_path/`, has no further `/`, and is one word whenever the old reference is |
| Paths.Name | setuputils/macos_fix_shared_libs.py:67 | no contract of its own: `Path(p).name`, the last non-empty component other than `.`. `Paths.NameIsComponent` states its shape |
| Paths.NameIsComponent | setuputils/macos_fix_shared_libs.py:67 | `Path(p).name` holds no `/`, is never `.`, and is made of the path's characters |
| Paths.ReferenceKeepsName | setuputils/macos_fix_shared_libs.py:67 | the new reference names the same file as the old one |
| Paths.RewriteFixedPoint | setuputils/macos_fix_shared_libs.py:67 | rewriting a rewritten reference gives it back exactly when the old path names a file (`Name` is not empty); for `/` or `.` a second rewrite yields `@loader_path/@loader_path` |
| Paths.RewriteDropsDirectory | setuputils/macos_fix_shared_libs.py:67 | `<dir>/<file>` becomes `@loader_path/<file>`, whatever the directory |
| Relocation.ApplyChanges | setuputils/macos_fix_shared_libs.py:68-77 | a run of `-change` calls keeps the install name, the LC_RPATH list and the number of references |
| MachO.ChangeDependency | setuputils/macos_fix_shared_libs.py:68-77 | `-change from to` keeps the install name, the LC_RPATH list and the number of references. Afterwards no reference names `from` (unless `to` is `from`), and `to` is present whenever `from` was |
| MachO.ChangeDependencyAddsOnlyTarget | setuputils/macos_fix_shared_libs.py:68-77 | `-change` brings in no name but `to`, and with no reference naming `from` it changes nothing |
| Relocation.ApplyChangesPointwise | setuputils/macos_fix_shared_libs.py:66-77 | after the `-change` calls, each reference is rewritten when it was one of the sources and untouched otherwise; a later change never undoes an earlier one |
| Relocation.ApplyChangesNoOp | setuputils/macos_fix_shared_libs.py:68-77 | changes whose every matching reference is already its own rewrite leave the binary as it is |
| Relocation.Edited | setuputils/macos_fix_shared_libs.py:68-77 | no contract of its own: a run of `install_name_tool -change` calls on one library, which stays as it was when the tool cannot write it. `Relocation.EditedAppend` states that a run is its parts one after the other |
| Relocation.EditedAppend | setuputils/macos_fix_shared_libs.py:63-77 | the `-change` calls of a whole listing are those of its lines, one after the other |
| Store.BinaryStore.RewriteLine | setuputils/macos_fix_shared_libs.py:64-78 | the loop over target names makes one `-change` per name the line contains. It leaves the state `Relocation.Edited` gives and succeeds iff the library is writable or nothing was to be changed |
| Store.BinaryStore.RewriteLines | setuputils/macos_fix_shared_libs.py:63-78 | the same for the loop over the `otool -L` lines: the state after all the library's `-change` calls |
| Store.BinaryStore.UpdateDylibReferences | setuputils/macos_fix_shared_libs.py:59-80 | one library: the state `Relocation.DylibUpdated` gives. It reports an error exactly when `otool` fails, or `install_name_tool` fails and had something to change |
| Relocation.DylibUpdated | setuputils/macos_fix_shared_libs.py:59-80 | one library of the loop keeps every path, changes no other binary, and keeps the library's install name and LC_RPATH list |
| Relocation.ReferencesUpdated | setuputils/macos_fix_shared_libs.py:58-80 | no contract of its own: the loop as a fold of `DylibUpdated` in glob order. `Relocation.UpdatedPointwise` and `Relocation.UpdatedKeys` state its effect |
| Store.BinaryStore.UpdateRpathReferences | setuputils/macos_fix_shared_libs.py:46-80 | the glob loop leaves the state `Relocation.ReferencesUpdated` gives, with one processed flag per `*.dylib` |
| Relocation.ReferencesRewritten | setuputils/macos_fix_shared_libs.py:63-78 | no contract of its own: one library after every `-change` its listing calls for, in order. `Relocation.RewriteReferences` and `Relocation.RewriteIdempotent` state the result |
| Relocation.RewriteReferences | setuputils/macos_fix_shared_libs.py:63-78 | in one library, every reference on a line naming a target becomes `@loader_path/<its name>` and every non-source reference stays. The install name, the LC_RPATH list and well-formedness are kept |
| Relocation.RewriteIdempotent | setuputils/macos_fix_shared_libs.py:63-78 | rewriting an already rewritten library changes nothing |
| Relocation.RewriteIgnoresRpaths | setuputils/macos_fix_shared_libs.py:63-78 | the LC_RPATH entries play no part in the rewrite |
| Relocation.RewrittenWithRpaths | setuputils/macos_fix_shared_libs.py:63-78 | a rewritten library that has since gained LC_RPATH entries is left alone by a second rewrite |
| Relocation.DylibPaths | setuputils/macos_fix_shared_libs.py:58 | the glob yields exactly the library-directory entries whose names end in `.dylib` |
| Relocation.Processed | setuputils/macos_fix_shared_libs.py:58-80 | one processed flag per globbed library |
| Relocation.DylibSucceeds | setuputils/macos_fix_shared_libs.py:79-80 | no contract of its own: no error is reported exactly when `otool` works and `install_name_tool` works or has nothing to change. `Relocation.ProcessedReports` ties each library's flag to it |
| Relocation.ProcessedReports | setuputils/macos_fix_shared_libs.py:58-80 | an error on one library does not stop the others. Each library's flag is decided by the state the earlier ones left |
| Relocation.UpdatedPointwise | setuputils/macos_fix_shared_libs.py:58-80 | afterwards each globbed library both tools work on equals its single rewrite, even if globbed twice; every other binary is as it was |
| Relocation.UpdatedKeys | setuputils/macos_fix_shared_libs.py:58-80 | the loop adds and removes no binary and changes neither tool's ability to read or write any binary |
| Relocation.UpdatedKeepsWellFormed | setuputils/macos_fix_shared_libs.py:58-80 | references stay well-formed across the loop |
| Relocation.UpdateAfterAppends | setuputils/macos_fix_shared_libs.py:140-154 | appending LC_RPATH entries after the loop gives a second run of the loop nothing to do |
| Staging.FirstMatch | setuputils/macos_fix_shared_libs.py:120-121 | `next(glob("*.so"))` is the first matching entry in listing order, or raises when none matches |
| Staging.Largest | setuputils/macos_fix_shared_libs.py:123-130 | `max` over the non-link matches is a largest candidate (the first of equal sizes), or raises when there is none |
| Staging.IsFile | setuputils/macos_fix_shared_libs.py:136 | no contract of its own: `is_file()`, a regular file or a link to one. `Staging.FirstMissingFile` states the check built on it |
| Staging.FirstMissingFile | setuputils/macos_fix_shared_libs.py:134-137 | the first required file that is not a file, or none exactly when all are files |
| Staging.CheckRequiredFiles | setuputils/macos_fix_shared_libs.py:134-137 | the check loop stops at the first missing file, the one the FileNotFoundError names |
| Relocation.Select | setuputils/macos_fix_shared_libs.py:115-134 | the selection fails exactly when one of the four selections finds nothing. Otherwise it yields five files, the last being `libs/libtbb.12.10.dylib` |
| Relocation.SelectionMatchesGlobs | setuputils/macos_fix_shared_libs.py:120-130 | the modules match `*.so` in their directories. The libraries are largest non-link matches of `libOpenImageIO.*.dylib` and `libOpenColorIO.*.dylib` |
| Relocation.Relink | setuputils/macos_fix_shared_libs.py:98-163 | a run that selects nothing or finds a missing file changes nothing. A run completes exactly when the selection succeeds and all five files exist |
| Store.BinaryStore.RelinkAndDelocate | setuputils/macos_fix_shared_libs.py:98-163 | the whole script leaves the state and outcome `Relocation.Relink` gives |
| Relocation.RelinkPhases | setuputils/macos_fix_shared_libs.py:140-154 | a completed run is the reference rewrite, then `@loader_path` on all five files, then the staging rpath on the two modules |
| Relocation.Relinked | setuputils/macos_fix_shared_libs.py:140-154 | the three phases keep every path. What they do to each binary is stated by `RelinkedRewritesReferences` and `RelinkedAddsRpaths` |
| Relocation.RelinkedRewritesReferences | setuputils/macos_fix_shared_libs.py:140-154 | the phases keep every binary and install name. They change the references of exactly the globbed libraries both tools work on, as the rewrite says |
| Relocation.RelinkedAddsRpaths | setuputils/macos_fix_shared_libs.py:153-154 | afterwards each of the five files both tools work on shows `@loader_path`, and each module shows `@loader_path/../../.dylibs`, whatever failed on the others |
| Relocation.RelinkedKeepsWellFormed | setuputils/macos_fix_shared_libs.py:153-154 | no binary lists an LC_RPATH twice after the phases |
| Relocation.RelinkedIdempotent | setuputils/macos_fix_shared_libs.py:140-154 | running the three phases again changes nothing |
| Relocation.RelinkIdempotent | setuputils/macos_fix_shared_libs.py:114-163 | running the whole script a second time reports the same outcome and changes nothing |
| Relocation.AppendsOnlyTransitive | setuputils/macos_fix_shared_libs.py:153-154 | two runs that only append LC_RPATH entries compose into one |
| BuildUtils.DetectCommandShape | setuputils/build_utils.py:31-36 | the detection command ends in `conan profile detect --force`. It begins with `arch -arm64` exactly on Darwin/arm64 |
| BuildUtils.DetectCommand | setuputils/build_utils.py:31-36 | no contract of its own: the detection command. `BuildUtils.DetectCommandShape` states its shape |
| BuildUtils.ProfileNames | setuputils/build_utils.py:22 | no contract of its own: `stdout.strip().splitlines()`. `Text.StripShape` and `Text.SplitLines` state what its two steps give |
| BuildUtils.HasDefault | setuputils/build_utils.py:22-24 | no contract of its own: `"default" in profiles` tests for a whole line of the stripped listing, not a substring |
| Text.Strip | setuputils/build_utils.py:22 | no contract of its own: `strip()`, leading then trailing space removed. `Text.StripShape` states its shape |
| Text.StripShape | setuputils/build_utils.py:22 | `strip()` returns a stretch of the string with no space at either end, empty exactly when the string is blank |
| BuildUtils.CommandRunner.ProfileCommands | setuputils/build_utils.py:16-45 | no contract of its own: the listing, then detection when no line is `default` and the listing worked. `ProfileSteps` states this |
| BuildUtils.CommandRunner.EnsuredProfile | setuputils/build_utils.py:13-65 | no contract of its own: the rewritten profile text, or None when a command failed or the profile file is missing. `ProfileSteps` states when it is written |
| BuildUtils.CommandRunner.Capture | setuputils/build_utils.py:16-21 | a captured command is logged. It yields its output exactly when it does not fail |
| BuildUtils.CommandRunner.ProfileSteps | setuputils/build_utils.py:16-45 | the listing always runs first. Detection runs second exactly when the listing worked and has no `default` line. The profile is written exactly when the file exists and no command failed |
| BuildUtils.CommandRunner.ConanProfileEnsure | setuputils/build_utils.py:13-65 | it starts the commands `ProfileSteps` describes and writes the rewritten profile text, or raises |
| BuildUtils.CppStdRewrittenLines | setuputils/build_utils.py:56-61 | the rewrite keeps the line count. Every line starting with `compiler.cppstd` becomes `compiler.cppstd=<std>`, and every other line stays in place |
| BuildUtils.RewriteCppStdLine | setuputils/build_utils.py:58-61 | no contract of its own: a line starting with `compiler.cppstd` becomes `compiler.cppstd=<std>`, any other line stays. `BuildUtils.CppStdRewrittenLines` states it for every line |
| BuildUtils.CppStdRewritten | setuputils/build_utils.py:56-61 | no contract of its own: `new_lines` built from the back. `CppStdRewrittenLines` states it line by line |
| BuildUtils.CppStdSingleValue | setuputils/build_utils.py:56-61 | afterwards every `compiler.cppstd` line sets the one given standard |
| BuildUtils.CppStdRewriteIdempotent | setuputils/build_utils.py:56-61 | rewriting the rewritten lines with the same standard changes nothing |
| BuildUtils.RewriteCppStd | setuputils/build_utils.py:56-61 | the loop builds exactly the rewritten lines |
| Text.SplitJoinLines | setuputils/build_utils.py:54-65 | lines joined with "\n" split back into the same lines, when none holds a line boundary and the last is not empty |
| BuildUtils.ProfileTextLines | setuputils/build_utils.py:54-65 | the written profile reads back as the rewritten lines |
| BuildUtils.ProfileText | setuputils/build_utils.py:54-65 | no contract of its own: split the profile into lines, rewrite them, join them with "\n". `ProfileTextLines` states how it reads back |
| Text.SplitLines | setuputils/build_utils.py:54 | `splitlines()`: no line holds a line boundary, and the result is empty exactly when the text is |
| Text.JoinLines | setuputils/build_utils.py:65 | no contract of its own: `"\n".join`. `Text.SplitJoinLines` states its inverse |
| BuildUtils.ProfileTextIdempotent | setuputils/build_utils.py:53-65 | rewriting the written profile with the same standard writes the same text |
| BuildUtils.ExpandBuildFlags | setuputils/build_utils.py:122-126 | the loop builds one `--build=<b>` per `to_build` entry, in order |
| BuildUtils.BuildFlags | setuputils/build_utils.py:122-126 | no contract of its own: one `--build=<b>` per entry. `BuildFlagsRoundTrip` states that the entries can be read back |
| BuildUtils.BuildFlagsRoundTrip | setuputils/build_utils.py:122-126 | the flags are as many as the entries, and reading them back gives the entries, in order |
| BuildUtils.CommandsCarryArguments | setuputils/build_utils.py:112-158 | read back by position: the source command carries root and version and no profile; install also carries the profile and every `to_build` entry; build and export-pkg carry the profile and no `--build=` flag |
| BuildUtils.SourceCommand | setuputils/build_utils.py:112-119 | no contract of its own: `conan source <root> --version <v>`. `CommandsCarryArguments` states what it carries |
| BuildUtils.InstallCommand | setuputils/build_utils.py:128-138 | no contract of its own: `conan install` with the profile, followed by the `--build=` flags. `CommandsCarryArguments` states what it carries |
| BuildUtils.BuildCommand | setuputils/build_utils.py:140-148 | no contract of its own: `conan build` with the profile. `CommandsCarryArguments` states what it carries |
| BuildUtils.ExportCommand | setuputils/build_utils.py:149-158 | no contract of its own: `conan export-pkg` with the profile. `CommandsCarryArguments` states what it carries |
| BuildUtils.BuildTargets | setuputils/build_utils.py:120-121 | no contract of its own: `to_build`, or `["missing"]` when it is None. `BuildUtils.DefaultBuildsMissing` states the default's effect on the install command |
| BuildUtils.DefaultBuildsMissing | setuputils/build_utils.py:120-138 | with no `to_build`, the install command ends in `--build=missing` |
| BuildUtils.PlanOrder | setuputils/build_utils.py:159-164 | the commands run as `source` (when asked), `install`, `build`, then `export-pkg` (when asked) |
| BuildUtils.InstallPlan | setuputils/build_utils.py:159-164 | no contract of its own: the four commands, with source and export gated by their flags. `PlanOrder` states the order |
| BuildUtils.Executed | setuputils/build_utils.py:159-164 | no contract of its own: the commands `check=True` lets start. `ExecutedStopsAtFailure` states that it is a prefix ending at the first failure |
| BuildUtils.ExecutedStopsAtFailure | setuputils/build_utils.py:159-164 | the commands started are a prefix of the plan, and all but the last succeeded. A shorter prefix ends in the failing command. The whole plan runs and succeeds exactly when no command fails |
| BuildUtils.RunFirst | setuputils/build_utils.py:159-164 | running a plan is running its first command, then the rest unless that one fails |
| BuildUtils.CommandRunner.Run | setuputils/build_utils.py:160 | a started command is logged and reports failure exactly when it exits non-zero |
| BuildUtils.CommandRunner.RunInOrder | setuputils/build_utils.py:159-164 | the four calls log exactly the commands `Executed` gives, and succeed exactly when none fails |
| BuildUtils.CommandRunner.ConanInstallPackage | setuputils/build_utils.py:102-164 | the whole function logs exactly the started prefix of the source/install/build/export plan, and succeeds exactly when no command in the plan fails |

## Left out

- Mach-O parsing and `otool`'s real output: a binary is modelled as its
  install name, references and LC_RPATH entries, and `otool -L` / `otool -l`
  as a rendering of those. Other load commands and the version numbers
  printed after each reference are not modelled.
- Paths holding whitespace or line breaks: a reference is assumed to be one
  word free of line breaks, as `line.split()[0]` needs.
- Relocation.UpdatedPointwise, Relocation.Edited, Relocation.DylibUpdated,
  Store.BinaryStore.ChangeReference, Store.BinaryStore.RewriteLine and
  Store.BinaryStore.UpdateDylibReferences: an `install_name_tool` fault
  belongs to a binary, so every call on that binary fails or every call
  succeeds.
  - The real tool fails one call at a time. For example, `-change` to the
    longer `@loader_path/<name>` can run out of load-command padding after
    earlier changes to the same library succeeded.
  - The script then abandons that library's remaining lines (:68-80) and
    leaves it partly rewritten. The model has no such state.
  - UpdatedPointwise's "rewritten once over, or untouched" therefore holds
    only under this per-binary fault model.
- Symbolic links, beyond what `is_symlink()` and `is_file()` answer: a link
  and its target are not aliases in the model, so an edit through one is not
  seen through the other.
- The glob order of the file system: `glob` yields entries in the order the
  directory listing gives them.
- `libs_dir.mkdir(...)`: directory creation is not modelled. Every printed
  message is reduced to the outcome values listed above.
- `FileNotFoundError` raised by a tool that is not installed, and any
  exception other than the ones the script names, are not modelled.
- The absolute location of the package directory. Binary paths are
  relative to `oiio_python/`: `libs/<name>`, `OpenImageIO/<name>` and
  `PyOpenColorIO/<name>`. The script instead passes `otool` the absolute
  paths under `project / "oiio_python"`, and `otool -L` prints that path as
  its header line.
  - The choice decides whether a header line matches a target name. In the
    model it matches only through `libs/` and the file name. In the script it
    also matches when the project directory's own path contains a target
    name, for example a checkout under a directory called `libtbb`.
  - Such a match only adds a `-change` of a name no reference has. That call
    is a no-op, except that a failing `install_name_tool` on that library is
    then reported as an error.
- The location of `~/.conan2/profiles/default`. The default profile's
  content is a parameter (None when the file does not exist), and the text
  written to `default_oiio_build` is the returned value.
- The branch of `conan_profile_ensure` that prints a detection error when
  the return code is non-zero: with `check=True` a non-zero return code
  raises before that test, so the branch cannot be reached.
- `build_cleanup` is not part of this model (file-system deletion with
  retries on PermissionError and a one-second sleep).
- BuildUtils.ProfileTextLines: stated only for a standard without line
  boundaries and a profile whose last line is not empty. Otherwise
  `"\n".join` followed by `splitlines` does not give the lines back.
- BuildUtils.ProfileTextIdempotent: stated under the same two conditions.
- Store.BinaryStore.RewriteLine: requires a line that has a first word;
  `MachO.ListingLinesHaveTokens` proves every `otool -L` line has one.
- BuildUtils.CommandRunner.ConanInstallPackage: `root_folder.as_posix()` is
  taken as a string already in POSIX form.
