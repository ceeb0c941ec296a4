/** The directory backend: the archive is a plain directory tree, reachable
    directly through the filesystem. */
module Directory {
  import opened Paths
  import opened Errors
  import opened ArchiveDetail

  /** The `Directory` constructor: the hint is not consulted, the root is the
      given path, and direct access is on. */
  function Open(path: Path, hint: Option<string>): (d: Detail)
    ensures d.path == path
    ensures d.directio
  {
    NewDetail(path, true)
  }

  /** `Directory::istream`: the file that is opened for `path`. An absolute
      path is opened as it is; a relative one is opened under the root, and
      taking the root off the file gives the path back. */
  function Istream(d: Detail, path: Path): (file: Path)
    ensures path.absolute ==> file == path
    ensures !path.absolute ==> file.absolute == d.path.absolute
    ensures !path.absolute ==> IsPathPrefix(file, d.path) && CutPathPrefix(file, d.path) == path
  {
    if path.absolute then path
    else
      JoinThenCut(d.path, path);
      Join(d.path, path)
  }
}
