/**
 * Path names as `pathlib` reads them, and the self-relative reference the
 * relocation step writes: `@loader_path/` followed by the referenced file's
 * final name component.
 */
module Paths {
  import opened Text

  /** dyld's prefix for "the directory of the binary doing the loading". */
  const LoaderPath: string := "@loader_path"

  /** The characters after the last `/` of `p` (all of `p` when it has none). */
  function LastSegment(p: string): (segment: string)
    ensures |segment| <= |p|
  {
    if p == [] || p[|p| - 1] == '/' then [] else LastSegment(p[..|p| - 1]) + [p[|p| - 1]]
  }

  /** The last segment ends the path, holds no `/`, and is preceded by one when it is not the whole path. */
  lemma {:induction false} LastSegmentShape(p: string)
    ensures LastSegment(p) == p[|p| - |LastSegment(p)|..]
    ensures '/' !in LastSegment(p)
    ensures |LastSegment(p)| < |p| ==> p[|p| - |LastSegment(p)| - 1] == '/'
    decreases |p|
  {
    if p != [] && p[|p| - 1] != '/' {
      var q := p[..|p| - 1];
      LastSegmentShape(q);
      assert p[|p| - |LastSegment(p)|..] == q[|q| - |LastSegment(q)|..] + [p[|p| - 1]];
    }
  }

  /**
   * `PurePosixPath(p).name`: the last component that is neither empty nor
   * `.`, so `a/b/` and `a/b/.` both name `b`, and `/` or `.` name nothing.
   */
  function Name(p: string): string
    decreases |p|
  {
    var segment := LastSegment(p);
    if segment != [] && segment != "." then segment
    else if |segment| == |p| then []
    else Name(p[..|p| - |segment| - 1])
  }

  /** The name is one component: no `/`, not `.`, and made of characters of the path. */
  lemma {:induction false} NameIsComponent(p: string)
    ensures '/' !in Name(p) && Name(p) != "."
    ensures forall i :: 0 <= i < |Name(p)| ==> Name(p)[i] in p
    decreases |p|
  {
    var segment := LastSegment(p);
    LastSegmentShape(p);
    if !(segment != [] && segment != ".") && |segment| != |p| {
      var q := p[..|p| - |segment| - 1];
      NameIsComponent(q);
      forall i | 0 <= i < |Name(p)| ensures Name(p)[i] in p {
        assert Name(p)[i] in q;
        var j :| 0 <= j < |q| && q[j] == Name(p)[i];
        assert p[j] == q[j];
      }
    } else if segment != [] && segment != "." {
      forall i | 0 <= i < |segment| ensures segment[i] in p {
        assert segment[i] == p[|p| - |segment| + i];
      }
    }
  }

  /** `f"@loader_path/{Path(old_path).name}"`: the reference the rewrite installs. */
  function LoaderPathReference(dependency: string): (reference: string)
    ensures StartsWith(reference, LoaderPath + "/")
    ensures '/' !in reference[|LoaderPath| + 1..]
    ensures IsToken(dependency) ==> IsToken(reference)
  {
    NameIsComponent(dependency);
    LoaderPath + "/" + Name(dependency)
  }

  lemma {:induction false} LastSegmentAfterSlash(dir: string, name: string)
    requires '/' !in name
    ensures LastSegment(dir + "/" + name) == name
    decreases |name|
  {
    if name != [] {
      var p := dir + "/" + name;
      assert p[..|p| - 1] == dir + "/" + name[..|name| - 1];
      LastSegmentAfterSlash(dir, name[..|name| - 1]);
      assert name == name[..|name| - 1] + [name[|name| - 1]];
    }
  }

  /** A file name with no `/`, that is neither empty nor `.`, is the name of any path it ends. */
  lemma NameAfterSlash(dir: string, name: string)
    requires '/' !in name && name != [] && name != "."
    ensures Name(dir + "/" + name) == name
  {
    LastSegmentAfterSlash(dir, name);
  }

  /** The rewritten reference names the same file as the old one, whenever the old one names a file at all. */
  lemma ReferenceKeepsName(dependency: string)
    requires Name(dependency) != []
    ensures Name(LoaderPathReference(dependency)) == Name(dependency)
  {
    NameIsComponent(dependency);
    NameAfterSlash(LoaderPath, Name(dependency));
  }

  /**
   * The rewrite is a fixed point on its own output exactly when the old path
   * names a file: `/` or `.` become `@loader_path/`, which a second rewrite
   * turns into `@loader_path/@loader_path`.
   */
  lemma RewriteFixedPoint(dependency: string)
    ensures LoaderPathReference(LoaderPathReference(dependency)) == LoaderPathReference(dependency)
        <==> Name(dependency) != []
  {
    if Name(dependency) != [] {
      ReferenceKeepsName(dependency);
    } else {
      var once := LoaderPathReference(dependency);
      assert once == LoaderPath + "/";
      assert LastSegment(once) == [];
      assert once[..|once| - 1] == LoaderPath;
      assert LastSegment(LoaderPath) == LoaderPath by {
        LastSegmentShape(LoaderPath);
        assert '/' !in LoaderPath;
        assert LoaderPath[0..] == LoaderPath;
      }
      assert Name(once) == LoaderPath;
      assert |LoaderPathReference(once)| != |once|;
    }
  }

  /**
   * A reference `<dir>/<file>`, such as `/build/tmp/libBar.3.dylib`, becomes
   * exactly `@loader_path/<file>`: no directory of the old path survives.
   */
  lemma RewriteDropsDirectory(dir: string, file: string)
    requires '/' !in file && file != [] && file != "."
    ensures LoaderPathReference(dir + "/" + file) == LoaderPath + "/" + file
  {
    NameAfterSlash(dir, file);
  }
}
