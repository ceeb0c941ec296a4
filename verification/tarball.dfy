/** The tarball backend: resolving the archive's root from a hint file name,
    indexing the members that lie under that root, and opening one of them
    as a byte range of the archive's shared descriptor. */
module Tarball {
  import opened Paths
  import opened Errors

  /** One member as the tar reader lists it: its path inside the archive,
      the offset of its data and the size of its data. */
  datatype Member = Member(path: Path, start: nat, size: nat)
  {
    /** `File::end()`: the offset just past the member's data. */
    function End(): nat { start + size }
  }

  /** `SubStreamDevice::Filedes`: the byte range [start, end) of the shared
      descriptor `fd`. */
  datatype Filedes = Filedes(fd: nat, start: nat, end: nat)

  /** `TarIndex`: the archive's path and the map from member paths relative
      to the resolved root to their byte ranges. */
  datatype TarIndex = TarIndex(archive: Path, index: map<Path, Filedes>)

  /** `TarIStream`: the path it was opened for, the range it reads, and its
      size, fixed when it is opened. */
  datatype TarIStream = TarIStream(path: Path, fd: Filedes, size: int)

  // ----- Root resolution ----------------------------------------------------

  /** `findPrefix` as a value: the parent directory of the first member whose
      file name is the hint, or the failure naming hint and archive. */
  function Prefix(archive: Path, hint: string, files: seq<Member>): Result<Path>
    decreases |files|
  {
    if files == [] then Failure(HintNotFound(hint, archive))
    else if Filename(files[0].path) == hint then Success(ParentPath(files[0].path))
    else Prefix(archive, hint, files[1..])
  }

  /** `findPrefix`: scans the members in order and stops at the first one
      whose file name is the hint. */
  method FindPrefix(archive: Path, hint: string, files: seq<Member>) returns (r: Result<Path>)
    ensures r == Prefix(archive, hint, files)
  {
    var i := 0;
    while i < |files|
      invariant 0 <= i <= |files|
      invariant Prefix(archive, hint, files) == Prefix(archive, hint, files[i..])
    {
      assert files[i..][1..] == files[i + 1..];
      if Filename(files[i].path) == hint {
        return Success(ParentPath(files[i].path));
      }
      i := i + 1;
    }
    return Failure(HintNotFound(hint, archive));
  }

  /** The root is the parent of the first member named like the hint:
      members after it are never looked at. */
  lemma {:induction false} PrefixIsFirstMatch(archive: Path, hint: string, files: seq<Member>, i: nat)
    requires i < |files| && Filename(files[i].path) == hint
    requires forall j :: 0 <= j < i ==> Filename(files[j].path) != hint
    ensures Prefix(archive, hint, files) == Success(ParentPath(files[i].path))
  {
    if i > 0 {
      assert Filename(files[0].path) != hint;
      PrefixIsFirstMatch(archive, hint, files[1..], i - 1);
    }
  }

  /** Resolution fails exactly when no member has the hint as file name, and
      then it names the hint and the archive. */
  lemma {:induction false} PrefixFailsIffNoMatch(archive: Path, hint: string, files: seq<Member>)
    ensures Prefix(archive, hint, files).Failure?
        <==> forall j :: 0 <= j < |files| ==> Filename(files[j].path) != hint
    ensures Prefix(archive, hint, files).Failure?
        ==> Prefix(archive, hint, files).error == HintNotFound(hint, archive)
  {
    if files != [] {
      PrefixFailsIffNoMatch(archive, hint, files[1..]);
      assert forall j :: 1 <= j < |files| ==> files[j] == files[1..][j - 1];
    }
  }

  // ----- Index construction -------------------------------------------------

  /** Whether member `m` lies under the root `prefix`. */
  predicate Eligible(m: Member, prefix: Path)
  {
    IsPathPrefix(m.path, prefix)
  }

  /** Whether member `i` of `files` lies under `prefix` and is keyed `key`. */
  predicate Yields(files: seq<Member>, i: int, prefix: Path, key: Path)
    requires 0 <= i < |files|
  {
    Eligible(files[i], prefix) && CutPathPrefix(files[i].path, prefix) == key
  }

  /** The range a member is indexed with. */
  function RangeOf(m: Member, fd: nat): Filedes
  {
    Filedes(fd, m.start, m.End())
  }

  /** `std::map::insert`: adds the entry only when the key is still free. */
  function Insert(index: map<Path, Filedes>, key: Path, value: Filedes): (r: map<Path, Filedes>)
    ensures r.Keys == index.Keys + {key}
    ensures key in index ==> r == index
    ensures key !in index ==> r[key] == value
    ensures forall k :: k in index ==> r[k] == index[k]
  {
    if key in index then index else index[key := value]
  }

  /** The index the `TarIndex` constructor builds from the first `|files|`
      members: each member under `prefix`, in order, inserted under its path
      relative to `prefix`. */
  function IndexOf(files: seq<Member>, prefix: Path, fd: nat): map<Path, Filedes>
    decreases |files|
  {
    if files == [] then map[]
    else
      var index := IndexOf(files[..|files| - 1], prefix, fd);
      var m := files[|files| - 1];
      if Eligible(m, prefix) then Insert(index, CutPathPrefix(m.path, prefix), RangeOf(m, fd))
      else index
  }

  /** The loop of the `TarIndex` constructor. */
  method BuildIndex(files: seq<Member>, prefix: Path, fd: nat) returns (index: map<Path, Filedes>)
    ensures index == IndexOf(files, prefix, fd)
  {
    index := map[];
    var i := 0;
    while i < |files|
      invariant 0 <= i <= |files|
      invariant index == IndexOf(files[..i], prefix, fd)
    {
      assert files[..i + 1][..i] == files[..i];
      var file := files[i];
      if IsPathPrefix(file.path, prefix) {
        var path := CutPathPrefix(file.path, prefix);
        if path !in index {
          index := index[path := Filedes(fd, file.start, file.End())];
        }
      }
      i := i + 1;
    }
    assert files[..i] == files;
  }

  /** The `TarIndex` constructor: the root is resolved from the hint (the
      empty path without one) and the index built over it. */
  method OpenIndex(archive: Path, files: seq<Member>, fd: nat, hint: Option<string>)
    returns (r: Result<TarIndex>)
    ensures hint.None? ==> r == Success(TarIndex(archive, IndexOf(files, Empty, fd)))
    ensures hint.Some? && Prefix(archive, hint.value, files).Failure?
        ==> r == Failure(Prefix(archive, hint.value, files).error)
    ensures hint.Some? && Prefix(archive, hint.value, files).Success?
        ==> r == Success(TarIndex(archive, IndexOf(files, Prefix(archive, hint.value, files).value, fd)))
  {
    var prefix := Empty;
    if hint.Some? {
      var found := FindPrefix(archive, hint.value, files);
      if found.Failure? {
        return Failure(found.error);
      }
      prefix := found.value;
    }
    var index := BuildIndex(files, prefix, fd);
    return Success(TarIndex(archive, index));
  }

  /** Every key of the index comes from a member under the root, and every
      member under the root gives a key. */
  lemma {:induction false} IndexKeys(files: seq<Member>, prefix: Path, fd: nat, key: Path)
    ensures key in IndexOf(files, prefix, fd)
        <==> exists i :: 0 <= i < |files| && Yields(files, i, prefix, key)
    decreases |files|
  {
    if files != [] {
      var n := |files| - 1;
      var init := files[..n];
      IndexKeys(init, prefix, fd, key);
      if key in IndexOf(files, prefix, fd) {
        if key in IndexOf(init, prefix, fd) {
          var i :| 0 <= i < n && Yields(init, i, prefix, key);
          assert init[i] == files[i];
          assert Yields(files, i, prefix, key);
        } else {
          assert Yields(files, n, prefix, key);
        }
      }
      if exists i :: 0 <= i < |files| && Yields(files, i, prefix, key) {
        var i :| 0 <= i < |files| && Yields(files, i, prefix, key);
        if i < n {
          assert init[i] == files[i];
          assert Yields(init, i, prefix, key);
          assert key in IndexOf(init, prefix, fd);
        }
      }
    }
  }

  /** A key maps to the range of the FIRST member under the root that gives
      it: later members with the same relative path do not overwrite it. */
  lemma {:induction false} IndexFirstWins(files: seq<Member>, prefix: Path, fd: nat, key: Path, i: nat)
    requires i < |files| && Yields(files, i, prefix, key)
    requires forall j :: 0 <= j < i ==> !Yields(files, j, prefix, key)
    ensures key in IndexOf(files, prefix, fd)
    ensures IndexOf(files, prefix, fd)[key] == RangeOf(files[i], fd)
    decreases |files|
  {
    var n := |files| - 1;
    var init := files[..n];
    forall j | 0 <= j < i && j < n
      ensures !Yields(init, j, prefix, key)
    {
      assert init[j] == files[j];
      assert !Yields(files, j, prefix, key);
    }
    if i < n {
      assert init[i] == files[i];
      IndexFirstWins(init, prefix, fd, key, i);
    } else {
      IndexKeys(init, prefix, fd, key);
    }
  }

  /** Without a hint the root is the empty path, so every member is indexed,
      under its own path, absolute or relative. */
  lemma {:induction false} IndexWithoutHint(files: seq<Member>, fd: nat, i: nat)
    requires i < |files|
    ensures files[i].path in IndexOf(files, Empty, fd)
  {
    assert Yields(files, i, Empty, files[i].path);
    IndexKeys(files, Empty, fd, files[i].path);
  }

  /** A resolved root is the parent of some member named like the hint. */
  lemma {:induction false} PrefixFromMember(archive: Path, hint: string, files: seq<Member>)
    requires Prefix(archive, hint, files).Success?
    ensures exists i :: (0 <= i < |files| && Filename(files[i].path) == hint
                         && ParentPath(files[i].path) == Prefix(archive, hint, files).value)
  {
    if Filename(files[0].path) != hint {
      PrefixFromMember(archive, hint, files[1..]);
      var i :| 0 <= i < |files[1..]| && Filename(files[1..][i].path) == hint
        && ParentPath(files[1..][i].path) == Prefix(archive, hint, files).value;
      assert files[1..][i] == files[i + 1];
    } else {
      assert Filename(files[0].path) == hint;
    }
  }

  /** With a hint, the hint file itself sits at the root of the index (for a
      hint that names a file, not "" or "/"). */
  lemma HintFileAtRoot(archive: Path, hint: string, files: seq<Member>, fd: nat)
    requires hint != "" && hint != "/"
    requires Prefix(archive, hint, files).Success?
    ensures Path(false, [hint]) in IndexOf(files, Prefix(archive, hint, files).value, fd)
  {
    var prefix := Prefix(archive, hint, files).value;
    PrefixFromMember(archive, hint, files);
    var i :| 0 <= i < |files| && Filename(files[i].path) == hint && ParentPath(files[i].path) == prefix;
    var parts := files[i].path.parts;
    assert parts != [];
    assert parts[..|parts| - 1] + [parts[|parts| - 1]] == parts;
    assert Yields(files, i, prefix, Path(false, [hint]));
    IndexKeys(files, prefix, fd, Path(false, [hint]));
  }

  // ----- Lookup and opening -------------------------------------------------

  /** `TarIndex::file`: the range stored for `path`; a miss fails naming the
      path and the archive. */
  function File(t: TarIndex, path: Path): (r: Result<Filedes>)
    ensures r.Success? <==> path in t.index
    ensures r.Success? ==> r.value == t.index[path]
    ensures r.Failure? ==> r.error == FileNotFound(path, t.archive)
  {
    if path in t.index then Success(t.index[path]) else Failure(FileNotFound(path, t.archive))
  }

  /** `Tarball::istream`: the stream over the range the index holds for
      `path`, whose size is the length of that range. */
  function Istream(t: TarIndex, path: Path): (r: Result<TarIStream>)
    ensures r.Success? <==> path in t.index
    ensures r.Success? ==> r.value.path == path && r.value.fd == t.index[path]
    ensures r.Success? ==> r.value.size == r.value.fd.end - r.value.fd.start
  {
    match File(t, path)
    case Failure(e) => Failure(e)
    case Success(fd) => Success(TarIStream(path, fd, fd.end - fd.start))
  }

  /** A stream opened from an index the constructor built reads exactly the
      data of the first member under the root with that relative path: it
      starts at the member's data and its size is the member's size. */
  lemma StreamIsMemberData(archive: Path, files: seq<Member>, prefix: Path, fd: nat, i: nat)
    requires i < |files| && Eligible(files[i], prefix)
    requires forall j :: 0 <= j < i ==> !Yields(files, j, prefix, CutPathPrefix(files[i].path, prefix))
    ensures var s := Istream(TarIndex(archive, IndexOf(files, prefix, fd)), CutPathPrefix(files[i].path, prefix));
      s.Success? && s.value.fd.fd == fd && s.value.fd.start == files[i].start && s.value.size == files[i].size
  {
    IndexFirstWins(files, prefix, fd, CutPathPrefix(files[i].path, prefix), i);
  }
}
