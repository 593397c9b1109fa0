/** The name and path choices `doPackage` makes for each package it builds:
    the installed application name, the target path of the package file and
    the path of its checksum sidecar. */
module Packaging {
  import Strings

  /** The package (and installed binary) name: the client "mc" is packaged
      as "mcli", every other application under its own name. */
  function PackageName(app: string): (name: string)
    ensures name == "mcli" <==> app == "mc" || app == "mcli"
    ensures app != "mc" ==> name == app
  {
    if app == "mc" then "mcli" else app
  }

  /** "mcli" is the one name that two applications never share: only "mc"
      and "mcli" itself map to it, and distinct applications other than
      these two keep distinct names. */
  lemma PackageNameInjective(a: string, b: string)
    requires a != b
    requires PackageName(a) == PackageName(b)
    ensures {a, b} == {"mc", "mcli"}
  {
  }

  /** The elements of a path list that are not empty, in order. */
  function NonEmpty(elems: seq<string>): (r: seq<string>)
    ensures |r| <= |elems|
    ensures forall i :: 0 <= i < |r| ==> r[i] != ""
    ensures forall i :: 0 <= i < |r| ==> r[i] in elems
  {
    if elems == [] then []
    else (if elems[0] == "" then [] else [elems[0]]) + NonEmpty(elems[1..])
  }

  /** `filepath.Join` on Linux, for elements that need no cleaning: the
      non-empty elements separated by "/". */
  function JoinPath(elems: seq<string>): (path: string)
  {
    Strings.Join(NonEmpty(elems), "/")
  }

  /** The package file's path: `<app>-release/linux-<arch>/<pkg>`. */
  function TargetPath(app: string, arch: string, pkg: string): (path: string)
  {
    JoinPath([app + "-release", "linux-" + arch, pkg])
  }

  /** The checksum sidecar written next to the package. */
  function ChecksumPath(target: string): (path: string)
  {
    target + ".sha256sum"
  }

  /** A list without empty elements is kept whole. */
  lemma {:induction false} NonEmptyKeepsAll(elems: seq<string>)
    requires forall i :: 0 <= i < |elems| ==> elems[i] != ""
    ensures NonEmpty(elems) == elems
  {
    if elems != [] {
      NonEmptyKeepsAll(elems[1..]);
      assert [elems[0]] + elems[1..] == elems;
    }
  }

  /** Dropping the empty elements works piecewise: those of a joined list
      are those of each part, in order. */
  lemma {:induction false} NonEmptyAppend(a: seq<string>, b: seq<string>)
    ensures NonEmpty(a + b) == NonEmpty(a) + NonEmpty(b)
  {
    if a == [] {
      assert a + b == b;
    } else {
      assert (a + b)[0] == a[0];
      assert (a + b)[1..] == a[1..] + b;
      NonEmptyAppend(a[1..], b);
    }
  }

  /** With a non-empty package file name, the target path is the three
      parts with "/" between them. */
  lemma TargetPathShape(app: string, arch: string, pkg: string)
    requires pkg != ""
    ensures TargetPath(app, arch, pkg) == app + "-release" + "/" + ("linux-" + arch) + "/" + pkg
  {
    var dir, sub := app + "-release", "linux-" + arch;
    assert |dir| > 0 && |sub| > 0;
    NonEmptyKeepsAll([dir, sub, pkg]);
    Strings.JoinThree(dir, sub, pkg, "/");
  }

  /** Splitting the target path at "/" gives back the release directory,
      the architecture directory and the package file, provided none of the
      three contains "/". */
  lemma TargetPathSplit(app: string, arch: string, pkg: string)
    requires pkg != ""
    requires '/' !in app && '/' !in arch && '/' !in pkg
    ensures Strings.Split(TargetPath(app, arch, pkg), '/') == [app + "-release", "linux-" + arch, pkg]
  {
    var dir, sub := app + "-release", "linux-" + arch;
    var parts := [dir, sub, pkg];
    assert |dir| > 0 && |sub| > 0;
    NonEmptyKeepsAll(parts);
    assert '/' !in dir && '/' !in sub;
    Strings.SplitJoin(parts, '/');
  }

  /** The checksum sidecar is written next to the package: its path is the
      target path of the file named `<pkg>.sha256sum` in the same
      directory. */
  lemma SidecarBeside(app: string, arch: string, pkg: string)
    requires pkg != ""
    ensures ChecksumPath(TargetPath(app, arch, pkg)) == TargetPath(app, arch, pkg + ".sha256sum")
  {
    TargetPathShape(app, arch, pkg);
    TargetPathShape(app, arch, pkg + ".sha256sum");
  }
}
