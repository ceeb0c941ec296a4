/** The `RoArchive` facade: choosing a backend from the archive's content
    type, and translating paths for direct access and for opening files. */
module Archive {
  import opened Paths
  import opened Errors
  import opened ArchiveDetail
  import Tarball
  import Directory

  /** What the tar reader yields for the archive at hand: its members in
      order and the descriptor they all share. */
  datatype TarReader = TarReader(files: seq<Tarball.Member>, fd: nat)

  /** The backends the factory can build. */
  datatype Backend =
    | DirectoryBackend(detail: Detail)
    | TarballBackend(detail: Detail, tar: Tarball.TarIndex)
  {
    /** `Detail::directio()` */
    function Directio(): bool
    {
      detail.directio
    }
  }

  /** The stream a backend hands out: a file of the filesystem, or a range
      of the tarball. */
  datatype Opened = FileStream(file: Path) | TarStream(stream: Tarball.TarIStream)

  /** `RoArchive`: the archive's path, its backend and the cached direct
      access flag. */
  datatype RoArchive = RoArchive(path: Path, detail: Backend, directio: bool)

  /** What every archive the constructor builds satisfies: the flag is the
      backend's, the backend's root is the archive's path, and only the
      directory backend has direct access. */
  ghost predicate Valid(a: RoArchive)
  {
    && a.directio == a.detail.Directio()
    && a.detail.detail.path == a.path
    && (a.detail.Directio() <==> a.detail.DirectoryBackend?)
  }

  /** The root of a tarball: the empty path without a hint, else the one
      resolved from it. */
  function TarRoot(path: Path, hint: Option<string>, files: seq<Tarball.Member>): Path
    requires hint.Some? ==> Tarball.Prefix(path, hint.value, files).Success?
  {
    if hint.None? then Empty else Tarball.Prefix(path, hint.value, files).value
  }

  /** The backend the factory builds for a tarball: the archive's own path
      as root path, no direct access, and the index of the members under the
      root resolved from the hint. */
  function TarBackend(path: Path, hint: Option<string>, reader: TarReader): (b: Backend)
    requires hint.Some? ==> Tarball.Prefix(path, hint.value, reader.files).Success?
    ensures b.TarballBackend? && b.detail.path == path && !b.Directio()
    ensures b.tar.archive == path
    ensures forall key :: key in b.tar.index <==>
      exists i :: 0 <= i < |reader.files| && Tarball.Yields(reader.files, i, TarRoot(path, hint, reader.files), key)
  {
    var root := TarRoot(path, hint, reader.files);
    forall key
      ensures key in Tarball.IndexOf(reader.files, root, reader.fd) <==>
        exists i :: 0 <= i < |reader.files| && Tarball.Yields(reader.files, i, root, key)
    {
      Tarball.IndexKeys(reader.files, root, reader.fd, key);
    }
    TarballBackend(NewDetail(path), Tarball.TarIndex(path, Tarball.IndexOf(reader.files, root, reader.fd)))
  }

  /** `RoArchive::factory`: the content type found for the archive chooses
      the backend; zip archives and every other type fail. */
  method Factory(path: Path, hint: Option<string>, mime: string, reader: TarReader)
    returns (r: Result<Backend>)
    ensures mime == "inode/directory" ==> r == Success(DirectoryBackend(Directory.Open(path, hint)))
    ensures mime == "application/x-tar" ==>
      && (r.Failure? <==> hint.Some? && Tarball.Prefix(path, hint.value, reader.files).Failure?)
      && (r.Failure? ==> r.error == Tarball.Prefix(path, hint.value, reader.files).error)
      && (r.Success? ==> r.value == TarBackend(path, hint, reader))
    ensures mime == "application/zip" ==> r == Failure(ZipUnimplemented)
    ensures mime != "inode/directory" && mime != "application/x-tar" && mime != "application/zip"
        ==> r == Failure(UnsupportedArchiveType(mime))
  {
    if mime == "inode/directory" {
      return Success(DirectoryBackend(Directory.Open(path, hint)));
    }
    if mime == "application/x-tar" {
      var index := Tarball.OpenIndex(path, reader.files, reader.fd, hint);
      if index.Failure? {
        return Failure(index.error);
      }
      return Success(TarballBackend(NewDetail(path), index.value));
    }
    if mime == "application/zip" {
      return Failure(ZipUnimplemented);
    }
    return Failure(UnsupportedArchiveType(mime));
  }

  /** The `RoArchive` constructor: the backend comes from the factory and the
      direct access flag is cached from it, so it is on exactly for a
      directory. */
  method Open(path: Path, hint: Option<string>, mime: string, reader: TarReader)
    returns (r: Result<RoArchive>)
    ensures r.Success? <==>
      || mime == "inode/directory"
      || (mime == "application/x-tar" && (hint.None? || Tarball.Prefix(path, hint.value, reader.files).Success?))
    ensures r.Success? ==> Valid(r.value) && r.value.path == path
    ensures r.Success? ==> (r.value.directio <==> mime == "inode/directory")
    ensures r.Success? && mime == "inode/directory"
        ==> r.value.detail == DirectoryBackend(Directory.Open(path, hint))
    ensures r.Success? && mime == "application/x-tar"
        ==> r.value.detail == TarBackend(path, hint, reader)
  {
    var detail := Factory(path, hint, mime, reader);
    if detail.Failure? {
      return Failure(detail.error);
    }
    return Success(RoArchive(path, detail.value, detail.value.Directio()));
  }

  /** `RoArchive::path`: an absolute path as it is, a relative one under the
      archive's path (from which taking the archive's path off gives it
      back). */
  function PathOf(a: RoArchive, path: Path): (r: Path)
    ensures path.absolute ==> r == path
    ensures !path.absolute ==> r.absolute == a.path.absolute
    ensures !path.absolute ==> IsPathPrefix(r, a.path) && CutPathPrefix(r, a.path) == path
  {
    if path.absolute then path
    else
      JoinThenCut(a.path, path);
      Join(a.path, path)
  }

  /** `RoArchive::istream`: the backend opens the path. Only a tarball
      refuses, and exactly for a path its index lacks. */
  function Istream(a: RoArchive, path: Path): (r: Result<Opened>)
    ensures r.Failure? <==> a.detail.TarballBackend? && path !in a.detail.tar.index
    ensures r.Failure? ==> r.error == FileNotFound(path, a.detail.tar.archive)
    ensures a.detail.DirectoryBackend? ==> r == Success(FileStream(Directory.Istream(a.detail.detail, path)))
  {
    match a.detail
    case DirectoryBackend(d) => Success(FileStream(Directory.Istream(d, path)))
    case TarballBackend(_, t) =>
      match Tarball.Istream(t, path)
      case Failure(e) => Failure(e)
      case Success(s) => Success(TarStream(s))
  }

  /** Direct access is sound: when an archive offers it, the path `path`
      hands out is the very file its backend opens. */
  lemma DirectPathIsOpenedFile(a: RoArchive, path: Path)
    requires Valid(a) && a.directio
    ensures Istream(a, path) == Success(FileStream(PathOf(a, path)))
  {
  }

  /** In a tarball archive as the constructor builds it, every member under
      the root opens under its path relative to that root, with the size of
      its data, provided it is the first member with that relative path (a
      later duplicate opens the first one's data). */
  lemma TarballMemberOpens(a: RoArchive, path: Path, hint: Option<string>, reader: TarReader, i: nat)
    requires hint.Some? ==> Tarball.Prefix(path, hint.value, reader.files).Success?
    requires a.detail == TarBackend(path, hint, reader)
    requires i < |reader.files|
    requires Tarball.Eligible(reader.files[i], TarRoot(path, hint, reader.files))
    requires forall j :: 0 <= j < i ==> !Tarball.Yields(reader.files, j, TarRoot(path, hint, reader.files),
      CutPathPrefix(reader.files[i].path, TarRoot(path, hint, reader.files)))
    ensures var r := Istream(a, CutPathPrefix(reader.files[i].path, TarRoot(path, hint, reader.files)));
      && r.Success? && r.value.TarStream?
      && r.value.stream.fd == Tarball.RangeOf(reader.files[i], reader.fd)
      && r.value.stream.size == reader.files[i].size
  {
    var root := TarRoot(path, hint, reader.files);
    Tarball.IndexFirstWins(reader.files, root, reader.fd, CutPathPrefix(reader.files[i].path, root), i);
  }
}
