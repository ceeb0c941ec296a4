/** The HTTP backend: a tree of files under a base URL. The root is derived
    from the URL's text alone, nothing can be listed, and every open is one
    fetch. */
module HttpTree {
  import opened Paths
  import opened Errors
  import opened ArchiveDetail
  import opened Streams

  /** The open options' hint: the ordered candidate file names, if any. The
      HTTP backend only asks whether there is one. */
  type FileHint = Option<seq<string>>

  /** The resolved root and the file name taken as the hint, if one was. */
  datatype HintedPath = HintedPath(path: Path, usedHint: Option<Path>)

  /** `applyHintToPath`: with a hint, a URL naming a file is split into its
      directory (with a trailing separator) as the root and its file name as
      the used hint; without a hint, or for a URL ending in a separator, the
      URL is the root. */
  function ApplyHintToPath(path: Path, hint: FileHint): (h: HintedPath)
    ensures h.usedHint.Some? <==> hint.Some? && Filename(path) != "."
    ensures h.usedHint.None? ==> h.path == path
    ensures h.usedHint.Some? ==> h.usedHint.value == FilenamePath(path)
    ensures h.usedHint.Some? && |path.parts| >= 2
        ==> Filename(h.path) == "." && Join(ParentPath(h.path), h.usedHint.value) == path
  {
    if hint.None? then HintedPath(path, None)
    else if Filename(path) != "." then
      HintedPath(AppendSlash(ParentPath(path)), Some(FilenamePath(path)))
    else HintedPath(path, None)
  }

  /** With a hint and a URL naming a file in some directory, the root is a
      directory (its file name is "."), the used hint is the URL's own file
      name, and the root's directory joined with the used hint is the URL
      again. */
  lemma HintSplitsUrl(path: Path, hint: FileHint)
    requires hint.Some? && Filename(path) != "." && |path.parts| >= 2
    ensures var h := ApplyHintToPath(path, hint);
      && h.usedHint == Some(Path(false, [Filename(path)]))
      && Filename(h.path) == "."
      && Join(ParentPath(h.path), h.usedHint.value) == path
  {
    ParentThenFilename(path);
  }

  /** Without a hint, or for a URL ending in a separator, nothing is split
      off and no hint is recorded as used. */
  lemma NoSplitWithoutFilename(path: Path, hint: FileHint)
    requires hint.None? || Filename(path) == "."
    ensures ApplyHintToPath(path, hint) == HintedPath(path, None)
  {
  }

  /** A resolved root is a fixed point: resolving it again with the same hint
      gives the same root (so applying a hint to the current root, rather
      than the original URL, would only lose the used hint). */
  lemma {:induction false} ReHintFixedPoint(path: Path, hint: FileHint)
    ensures var root := ApplyHintToPath(path, hint).path;
      ApplyHintToPath(root, hint).path == root
  {
    if hint.Some? && Filename(path) != "." {
      var root := AppendSlash(ParentPath(path));
      if root.parts != [] {
        assert Filename(root) == ".";
      } else {
        assert ParentPath(root) == Empty;
      }
    }
  }

  /** What the URI library answers, which is not part of this model: whether
      a URI is absolute, and a relative URI resolved against a base. */
  datatype UriLibrary = UriLibrary(absolute: Path -> bool, resolve: (Path, Path) -> Path)

  /** The error code a failed fetch reports. */
  datatype ErrorCode = HttpNotFound | OtherCode(code: int)

  /** What a fetch gives: the body, a failure with its error code, or a body
      the client failed to hand over (an `http::Error` while moving it out). */
  datatype FetchResponse = Delivered(body: seq<Byte>) | Failed(code: ErrorCode) | BodyLost

  /** The URI a stream fetches and the index path it records. */
  datatype Request = Request(uri: Path, index: Path)

  /** The error mapping of the `HttpIStream` constructor: "not found" is
      `NoSuchFile`, every other failure `IOError`, both naming the URI. */
  function Classify(uri: Path, response: FetchResponse): (r: Result<seq<Byte>>)
    ensures r.Success? <==> response.Delivered?
    ensures r.Success? ==> r.value == response.body
    ensures r.Failure? ==> (r.error == NoSuchFile(uri) <==> response == Failed(HttpNotFound))
    ensures r.Failure? && response != Failed(HttpNotFound) ==> r.error == IOError(uri)
  {
    match response
    case Failed(code) => if code == HttpNotFound then Failure(NoSuchFile(uri)) else Failure(IOError(uri))
    case BodyLost => Failure(IOError(uri))
    case Delivered(body) => Success(body)
  }

  /** `HttpIStream`: a stream over a downloaded body. */
  class HttpIStream {
    /** The `IStream` part: size and seekability. */
    const stream: IStream
    /** The URI fetched. */
    const path: Path
    /** The path the caller asked for. */
    const index: Path
    const body: seq<Byte>

    constructor (stream: IStream, path: Path, index: Path, body: seq<Byte>)
      ensures this.stream == stream && this.path == path && this.index == index && this.body == body
    {
      this.stream := stream;
      this.path := path;
      this.index := index;
      this.body := body;
    }
  }

  /** The `HttpIStream` constructor: the stream is set up with only the
      filter initialiser (size unknown), the fetch's failure is classified,
      and on success the body becomes the source at the end of the chain. */
  method OpenHttpIStream(uri: Path, filterInit: FilterInit, index: Path, response: FetchResponse)
    returns (r: Result<HttpIStream>)
    ensures r.Failure? <==> !response.Delivered?
    ensures r.Failure? ==> r.error == Classify(uri, response).error
    ensures r.Success? ==> fresh(r.value) && fresh(r.value.stream)
    ensures r.Success? ==> r.value.path == uri && r.value.index == index && r.value.body == response.body
    ensures r.Success? ==> var s := r.value.stream;
      && (s.stacked <==> Pushed(filterInit) > 0)
      && s.size == None
      && s.seekable == !s.stacked
      && s.chain == Pushed(filterInit) + 1
      && s.Valid()
  {
    var stream := new IStream(filterInit);
    var body := Classify(uri, response);
    if body.Failure? {
      return Failure(body.error);
    }
    stream.Push();
    var h := new HttpIStream(stream, uri, index, body.value);
    return Success(h);
  }

  /** The `Http` backend. */
  class Http {
    var hintedPath: HintedPath
    /** The `RoArchive::Detail` part: the hinted root, no direct access. */
    var detail: Detail
    /** The URL the backend was opened with. */
    const originalPath: Path
    /** `base_`: the URI relative paths are resolved against. */
    var base: Path
    /** The hint last applied. */
    ghost var hint: FileHint

    ghost predicate Valid()
      reads this
    {
      && hintedPath == ApplyHintToPath(originalPath, hint)
      && detail == NewDetail(hintedPath.path, false)
      && base == detail.path
    }

    /** The constructor: the hint is applied to the URL, which is kept as the
        original. */
    constructor (path: Path, hint: FileHint)
      ensures Valid()
      ensures originalPath == path && this.hint == hint
      ensures !detail.directio
    {
      var hinted := ApplyHintToPath(path, hint);
      hintedPath := hinted;
      detail := NewDetail(hinted.path, false);
      originalPath := path;
      base := hinted.path;
      this.hint := hint;
    }

    /** `applyHint`: the root is recomputed from the original URL, so only
        the last hint applied matters. */
    method ApplyHint(hint: FileHint)
      requires Valid()
      modifies this
      ensures Valid()
      ensures this.hint == hint
      ensures hintedPath == ApplyHintToPath(originalPath, hint)
      ensures detail.path == hintedPath.path && base == hintedPath.path && !detail.directio
    {
      hintedPath := ApplyHintToPath(originalPath, hint);
      detail := detail.(path := hintedPath.path);
      base := detail.path;
      this.hint := hint;
    }

    /** `usedHint`: the original URL's file name when a hint split it, and
        nothing otherwise. */
    function UsedHint(): (r: Option<Path>)
      reads this
      requires Valid()
      ensures r.Some? <==> hint.Some? && Filename(originalPath) != "."
      ensures r.Some? ==> r.value == FilenamePath(originalPath)
    {
      hintedPath.usedHint
    }

    /** The request `istream` makes: an absolute URI is fetched as it is, a
        relative one resolved against the root; the index is always the
        caller's path. */
    function Target(path: Path, uris: UriLibrary): (r: Request)
      reads this
      ensures r.index == path
      ensures uris.absolute(path) ==> r.uri == path
      ensures !uris.absolute(path) ==> r.uri == uris.resolve(base, path)
    {
      if uris.absolute(path) then Request(path, path)
      else Request(uris.resolve(base, path), path)
    }

    /** `istream`: one fetch of the target URI; `fetch` stands for the
        network. */
    method Istream(path: Path, filterInit: FilterInit, uris: UriLibrary, fetch: Path -> FetchResponse)
      returns (r: Result<HttpIStream>)
      ensures var t := Target(path, uris);
        && (r.Failure? <==> !fetch(t.uri).Delivered?)
        && (r.Failure? ==> r.error == Classify(t.uri, fetch(t.uri)).error)
        && (r.Success? ==> fresh(r.value) && r.value.path == t.uri && r.value.index == path)
        && (r.Success? ==> r.value.body == fetch(t.uri).body)
        && (r.Success? ==> var s := r.value.stream;
              && (s.stacked <==> Pushed(filterInit) > 0)
              && s.Valid() && s.size == None && s.seekable == !s.stacked
              && s.chain == Pushed(filterInit) + 1)
    {
      var t := Target(path, uris);
      r := OpenHttpIStream(t.uri, filterInit, t.index, fetch(t.uri));
    }

    /** `exists`: every path is taken to exist; a missing file shows only
        when it is opened. */
    function Exists(path: Path): (r: bool)
      ensures r
    {
      true
    }

    /** `list`: not supported. */
    function List(): (r: Result<seq<Path>>)
      ensures r == Failure(NotImplemented("list"))
    {
      Failure(NotImplemented("list"))
    }

    /** `findFile`: not supported. */
    function FindFile(filename: string): (r: Result<Option<Path>>)
      ensures r == Failure(NotImplemented("find"))
    {
      Failure(NotImplemented("find"))
    }

    /** `handlesSchema`: the backend serves exactly the "http" and "https"
        schemas. */
    function HandlesSchema(schema: string): (r: bool)
      ensures r <==> schema == "http" || schema == "https"
    {
      schema == "http" || schema == "https"
    }
  }

  /** After any hint, a relative path is fetched from under the root that
      hint gave the original URL: for a URL naming a file, its directory. */
  lemma RelativeUriUsesHintedRoot(h: Http, path: Path, uris: UriLibrary)
    requires h.Valid() && h.hint.Some? && Filename(h.originalPath) != "."
    requires !uris.absolute(path)
    ensures h.Target(path, uris).uri == uris.resolve(AppendSlash(ParentPath(h.originalPath)), path)
  {
  }
}
