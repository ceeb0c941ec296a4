/** Filesystem paths as boost::filesystem (version 3) sees them: an optional
    root directory and a sequence of components. A path that ends with a
    separator has "." as its last component, as boost reports it. */
module Paths {

  datatype Path = Path(absolute: bool, parts: seq<string>)

  /** The empty path, `fs::path()`. */
  const Empty: Path := Path(false, [])

  /** `path.filename()`: the last component; the root directory of "/" is its
      own file name, and the empty path has an empty one. */
  function Filename(p: Path): string
  {
    if p.parts == [] then (if p.absolute then "/" else "")
    else p.parts[|p.parts| - 1]
  }

  /** `path.filename()` as a path: the last component as a relative path;
      "/" gives the root directory itself and the empty path gives the empty
      path. */
  function FilenamePath(p: Path): (r: Path)
    ensures p.parts == [] ==> r == Path(p.absolute, [])
    ensures p.parts != [] ==> !r.absolute && r.parts == [Filename(p)]
  {
    if p.parts == [] then Path(p.absolute, []) else Path(false, [Filename(p)])
  }

  /** `path.parent_path()`: the path without its last component; both "/" and
      the empty path have the empty path as parent. */
  function ParentPath(p: Path): Path
  {
    if p.parts == [] then Empty
    else Path(p.absolute, p.parts[..|p.parts| - 1])
  }

  /** `a / b` for a relative `b`: the components of `b` appended to `a`.
      When `a` ends with a separator its final "." is kept, so "x/" joined
      with "f" is "x/./f", which names the same file as boost's "x/f". */
  function Join(a: Path, b: Path): (r: Path)
    ensures r.absolute == a.absolute
    ensures |r.parts| == |a.parts| + |b.parts|
  {
    Path(a.absolute, a.parts + b.parts)
  }

  /** `p += '/'`: a separator appended to the text of `p`, so that "." becomes
      its file name; appended to "" or "/" it gives the root directory. */
  function AppendSlash(p: Path): Path
  {
    if p.parts == [] then Path(true, [])
    else Path(p.absolute, p.parts + ["."])
  }

  /** `utility::isPathPrefix(p, prefix)`: the components of `prefix` start
      those of `p`. The root directory of an absolute path is its first
      component, so a non-empty prefix and `p` agree on being absolute; the
      empty path is a prefix of every path. */
  predicate IsPathPrefix(p: Path, prefix: Path)
  {
    && (prefix == Empty || prefix.absolute == p.absolute)
    && |prefix.parts| <= |p.parts|
    && p.parts[..|prefix.parts|] == prefix.parts
  }

  /** `utility::cutPathPrefix(p, prefix)`: what remains of `p` once the
      components of `prefix` are taken off its front. Cutting the empty path
      leaves `p` as it is; cutting any other prefix leaves a relative path. */
  function CutPathPrefix(p: Path, prefix: Path): (r: Path)
    requires IsPathPrefix(p, prefix)
    ensures prefix == Empty ==> r == p
    ensures prefix != Empty ==> !r.absolute
    ensures |r.parts| == |p.parts| - |prefix.parts|
    ensures prefix != Empty ==> Join(prefix, r) == p
  {
    assert p.parts[..|prefix.parts|] + p.parts[|prefix.parts|..] == p.parts;
    Path(p.absolute && prefix == Empty, p.parts[|prefix.parts|..])
  }

  /** Joining a relative path onto a root and cutting the root off again gives
      back the relative path. */
  lemma JoinThenCut(root: Path, p: Path)
    requires !p.absolute
    ensures IsPathPrefix(Join(root, p), root)
    ensures CutPathPrefix(Join(root, p), root) == p
  {
    assert (root.parts + p.parts)[..|root.parts|] == root.parts;
    assert (root.parts + p.parts)[|root.parts|..] == p.parts;
  }

  /** A non-empty path is its parent joined with its file name. */
  lemma ParentThenFilename(p: Path)
    requires p.parts != []
    ensures Join(ParentPath(p), Path(false, [Filename(p)])) == p
  {
    assert p.parts[..|p.parts| - 1] + [p.parts[|p.parts| - 1]] == p.parts;
  }
}
