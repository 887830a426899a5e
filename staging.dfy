/**
 * The package directory as the relocation step finds it: the two
 * extension-module directories and the `libs` staging directory, each a
 * listing in the order `Path.glob` yields it. From these come the five
 * binaries the step must find before it edits anything.
 */
module Staging {
  import opened Optional
  import opened Text

  /** What `is_symlink()` and `is_file()` report of a directory entry (`is_file()` follows a link). */
  datatype Kind = RegularFile | Directory | Symlink(toRegularFile: bool)

  /** A directory entry: its name, `stat().st_size`, and its kind. */
  datatype Entry = Entry(name: string, size: nat, kind: Kind)

  /** The three directories under `oiio_python/` the step reads. */
  datatype Dir = ImageModuleDir | ColorModuleDir | LibsDir

  datatype Layout = Layout(imageModule: seq<Entry>, colorModule: seq<Entry>, libs: seq<Entry>)

  /** A file named by its directory and its name in it. */
  datatype Located = Located(dir: Dir, name: string)

  function DirName(d: Dir): string
  {
    match d
    case ImageModuleDir => "OpenImageIO"
    case ColorModuleDir => "PyOpenColorIO"
    case LibsDir => "libs"
  }

  /** The path of a located file, relative to `oiio_python/`; these are the keys of the binary store. */
  function PathOf(file: Located): string
  {
    DirName(file.dir) + "/" + file.name
  }

  function Listing(layout: Layout, d: Dir): seq<Entry>
  {
    match d
    case ImageModuleDir => layout.imageModule
    case ColorModuleDir => layout.colorModule
    case LibsDir => layout.libs
  }

  /** A glob `<prefix>*<suffix>` on one name: the star matches any part, possibly empty, between them. */
  predicate GlobMatch(name: string, prefix: string, suffix: string)
  {
    |prefix| + |suffix| <= |name| && StartsWith(name, prefix) && EndsWith(name, suffix)
  }

  /** `next(dir.glob("*<suffix>"))`: the index of the first match, None where `next` raises StopIteration. */
  function FirstMatch(entries: seq<Entry>, suffix: string): (found: Option<nat>)
    ensures found.None? <==> forall i :: 0 <= i < |entries| ==> !GlobMatch(entries[i].name, "", suffix)
    ensures found.Some? ==> found.value < |entries| && GlobMatch(entries[found.value].name, "", suffix)
    ensures found.Some? ==> forall i :: 0 <= i < found.value ==> !GlobMatch(entries[i].name, "", suffix)
  {
    if entries == [] then None
    else if GlobMatch(entries[0].name, "", suffix) then Some(0)
    else
      match FirstMatch(entries[1..], suffix)
      case None => None
      case Some(k) => Some(k + 1)
  }

  /** An entry the size selection considers: it matches the glob and is not a symbolic link. */
  predicate Candidate(e: Entry, prefix: string, suffix: string)
  {
    GlobMatch(e.name, prefix, suffix) && !e.kind.Symlink?
  }

  /**
   * `max((f for f in glob(...) if not f.is_symlink()), key=size)`: the index
   * of a largest candidate, the first such in listing order (Python's `max`
   * keeps the earliest of equal keys); None where `max` raises ValueError.
   */
  function Largest(entries: seq<Entry>, prefix: string, suffix: string): (best: Option<nat>)
    ensures best.None? <==> forall i :: 0 <= i < |entries| ==> !Candidate(entries[i], prefix, suffix)
    ensures best.Some? ==> best.value < |entries| && Candidate(entries[best.value], prefix, suffix)
    ensures best.Some? ==>
      forall i :: 0 <= i < |entries| && Candidate(entries[i], prefix, suffix) ==> entries[i].size <= entries[best.value].size
    ensures best.Some? ==>
      forall i :: 0 <= i < best.value && Candidate(entries[i], prefix, suffix) ==> entries[i].size < entries[best.value].size
  {
    if entries == [] then None
    else
      var rest := Largest(entries[1..], prefix, suffix);
      if Candidate(entries[0], prefix, suffix) && (rest.None? || entries[rest.value + 1].size <= entries[0].size)
      then Some(0)
      else if rest.None? then None
      else Some(rest.value + 1)
  }

  /** `Path.is_file()`: the directory lists the name, as a regular file or a link to one. */
  predicate IsFile(layout: Layout, file: Located)
  {
    exists i :: 0 <= i < |Listing(layout, file.dir)| && Listing(layout, file.dir)[i].name == file.name
      && match Listing(layout, file.dir)[i].kind
         case RegularFile => true
         case Directory => false
         case Symlink(toRegularFile) => toRegularFile
  }

  /** Index of the first file of `required` that is not a file; None when all are. */
  function FirstMissingFile(layout: Layout, required: seq<Located>): (missing: Option<nat>)
    ensures missing.None? <==> forall i :: 0 <= i < |required| ==> IsFile(layout, required[i])
    ensures missing.Some? ==> missing.value < |required| && !IsFile(layout, required[missing.value])
    ensures missing.Some? ==> forall i :: 0 <= i < missing.value ==> IsFile(layout, required[i])
  {
    if required == [] then None
    else if !IsFile(layout, required[0]) then Some(0)
    else
      match FirstMissingFile(layout, required[1..])
      case None => None
      case Some(k) => Some(k + 1)
  }

  /**
   * The check loop of `relink_and_delocate`: walks the required files in
   * order and stops at the first that is not a file, which is the one the
   * FileNotFoundError names.
   */
  method CheckRequiredFiles(layout: Layout, required: seq<Located>) returns (missing: Option<nat>)
    ensures missing.None? <==> forall i :: 0 <= i < |required| ==> IsFile(layout, required[i])
    ensures missing.Some? ==> missing.value < |required| && !IsFile(layout, required[missing.value])
    ensures missing.Some? ==> forall i :: 0 <= i < missing.value ==> IsFile(layout, required[i])
    ensures missing == FirstMissingFile(layout, required)
  {
    var i := 0;
    while i < |required|
      invariant 0 <= i <= |required|
      invariant forall k :: 0 <= k < i ==> IsFile(layout, required[k])
    {
      if !IsFile(layout, required[i]) {
        missing := Some(i);
        return;
      }
      i := i + 1;
    }
    missing := None;
  }
}
