# libroarchive: a Dafny model of the archive bookkeeping

libroarchive gives read-only access to the files of an "archive": a plain
directory, a tar archive, (in future) a zip archive, or a tree of files
served over HTTP. The caller names a file inside the archive and gets a byte
stream. An optional hint, the name of a file the caller knows to be present,
picks the subtree of the archive that serves as its root.

This project models the bookkeeping around that access:

- `paths.dfy` (module `Paths`): boost filesystem paths as an absolute flag
  plus a sequence of components. A trailing separator is a final "."
  component, as boost reports it. Also file name, parent path, join, and the
  path-prefix test and cut that the tar index uses. The root directory
  counts as the first component of an absolute path, so an absolute root
  never captures a relative member, nor a non-empty relative root an
  absolute one; the empty root (no hint, or a hint member with a
  one-component relative path) captures every member.
- `errors.dfy` (module `Errors`): the exceptions as an `Error` datatype and
  a `Result` type, one constructor per kind of throw.
- `tarball.dfy` (module `Tarball`): the tar root found from the hint
  (`findPrefix`), the index of members under that root (`TarIndex`), lookup
  in it, and the size of the stream opened over a member's byte range.
- `istream.dfy` (module `Streams`): the `IStream` class with its size,
  seekability, stacked flag and timestamp, plus `IStream::read` over the
  stream that `get()` returns. The accessors `size()`, `seekable()` and
  `timestamp()` are the functions `Size`, `Seekable` and `Timestamp`.
- `detail.dfy` (module `ArchiveDetail`): the state shared by all backends.
- `directory.dfy` (module `Directory`): the directory backend.
- `http.dfy` (module `HttpTree`): the HTTP backend. It covers hint
  application on the URL, the request `istream` makes, fetch-error
  classification, and the fixed answers of `exists`, `list`, `findFile` and
  `handlesSchema`.
- `roarchive.dfy` (module `Archive`): the factory that picks a backend from
  the content type, the `RoArchive` constructor, `RoArchive::path` and
  `RoArchive::istream`.

Points where the code may surprise a reader:

- The tar root is found from ONE hint string (roarchive/tarball.cpp:45-59).
  The first member in list order whose file name equals it wins; later
  matches are never looked at.
- An unknown content type throws a plain runtime error ("Unsupported archive
  type", roarchive/roarchive.cpp:23-24). The `NotAnArchive` error declared at
  roarchive/error.hpp:45-47 is not thrown by any of the modelled code. Zip
  archives always fail, because the zip backend is not implemented.
- `IStream::read` seeks to the end, rewinds and reads that many bytes
  (roarchive/roarchive.cpp:44-54). On a stream that cannot seek it fails
  (`StreamFailure`).
- The directory backend ignores the hint, although the constructor's doc
  comment (roarchive/roarchive.hpp:42-43) says such backends check whether
  the hint is under the given path. The tarball backend keeps the archive's
  own path as its root path (`Detail`) and applies the resolved prefix only
  inside its index.
- `TarIStream` in `roarchive/tarball.cpp` is written against the older
  `IStream` interface of `roarchive/roarchive.hpp`. It carries its own size,
  `end - start`, and has no filter chain. It is modelled as such.

## Model

| member | source | states |
|---|---|---|
| `Tarball.FindPrefix` | roarchive/tarball.cpp:45-59 | the scan that stops at the first member named like the hint yields the same result as the resolution function `Prefix` |
| `Tarball.PrefixIsFirstMatch` | roarchive/tarball.cpp:49-53 | the root is the parent path of the first member, in list order, whose file name is the hint; later matches are ignored |
| `Tarball.PrefixFailsIffNoMatch` | roarchive/tarball.cpp:55-58 | resolution fails exactly when no member's file name is the hint, and the failure names the hint and the archive |
| `Tarball.PrefixFromMember` | roarchive/tarball.cpp:50-51 | a resolved root is always the parent directory of some member named like the hint |
| `Tarball.Insert` | roarchive/tarball.cpp:77-79 | `std::map::insert` adds the key, and keeps an existing entry untouched when the key is already present |
| `Tarball.BuildIndex` | roarchive/tarball.cpp:73-80 | the constructor's loop builds exactly `IndexOf`: each member under the prefix, in order, inserted under its relative path with its `{fd, start, end}` range |
| `Tarball.OpenIndex` | roarchive/tarball.cpp:65-81 | without a hint the prefix is the empty path; with one, resolution failure is the constructor's failure, and success indexes under the resolved root |
| `Tarball.IndexKeys` | roarchive/tarball.cpp:73-76 | a path is a key exactly when some member lies under the prefix and has that path once the prefix is cut off; members outside the prefix give no key |
| `Tarball.IndexFirstWins` | roarchive/tarball.cpp:76-79 | a key holds the descriptor, start and end of the FIRST member that gives it; later duplicates do not overwrite it |
| `Tarball.IndexWithoutHint` | roarchive/tarball.cpp:70-79 | with the empty prefix (no hint) every member is indexed under its own path, an absolute one keeping its root |
| `Tarball.HintFileAtRoot` | roarchive/tarball.cpp:70-79 | with a resolved hint, the hint file is indexed at the root, under its bare file name |
| `Tarball.File` | roarchive/tarball.cpp:83-91 | lookup returns the stored range exactly when the path is a key, and otherwise fails naming the path and the archive |
| `Tarball.Istream` | roarchive/tarball.cpp:109-112 | opening succeeds exactly for indexed paths; the stream reads the stored range and its size is `end - start` |
| `Tarball.StreamIsMemberData` | roarchive/tarball.cpp:22-23 | for the FIRST member under the root with a given relative path, the stream opened under that path starts at that member's data on the shared descriptor and its size is that member's size; a later member with the same relative path opens the first one's data |
| `Streams.IStream.constructor` | roarchive/istream.hpp:48-62 | the initialiser runs only when present; with no filter the given size and seekability are kept; with a filter stacked, size is unknown and seeking off; the timestamp is as given, with defaults none/true/-1; a stacked stream starts out keeping the invariant that it reports no size and no seeking |
| `Streams.IStream.Update` | roarchive/istream.hpp:94-101 | when not stacked both size and seekability are overwritten; when stacked nothing changes, so a stacked stream still reports no size and no seeking |
| `Streams.IStream.Size` | roarchive/istream.hpp:79 | the size last recorded; a stacked stream never reports one |
| `Streams.IStream.Seekable` | roarchive/istream.hpp:85 | the seekability last recorded; a stacked stream never reports itself seekable |
| `Streams.IStream.Push` | roarchive/http.cpp:76-81 | pushing the source device lengthens the chain and leaves size and seekability as they were |
| `Streams.Source.SeekEnd` | roarchive/roarchive.cpp:47 | seeking to the end reports the stream's length, or fails on a stream that cannot seek |
| `Streams.Source.Rewind` | roarchive/roarchive.cpp:48 | seeking to offset 0 puts the read position at the start |
| `Streams.Source.ReadInto` | roarchive/roarchive.cpp:52 | reading fills the whole buffer with the bytes from the read position on, and fails when fewer bytes remain |
| `Streams.Read` | roarchive/roarchive.cpp:44-54 | the buffer holds the whole stream from offset 0, its length being the length found by seeking to the end; a stream that cannot seek fails |
| `ArchiveDetail.NewDetail` | roarchive/detail.hpp:10-13 | the root path is stored as given and direct access defaults to off |
| `Directory.Open` | roarchive/directory.cpp:31-37 | whatever the hint, the backend's root is the given path and direct access is on |
| `Directory.Istream` | roarchive/directory.cpp:42-48 | an absolute path is opened unchanged; a relative one is opened under the root, and cutting the root off gives the path back |
| `HttpTree.ApplyHintToPath` | roarchive/http.cpp:100-115 | a hint is used exactly when one is given and the URL does not end in a separator; the used hint is the URL's `filename()`; otherwise the URL is the root unchanged; for a URL naming a file in a directory, the root is a directory whose parent joined with the used hint is the URL again |
| `HttpTree.HintSplitsUrl` | roarchive/http.cpp:104-108 | with a hint and a URL naming a file, the root is a directory, the used hint is the URL's own file name, and root directory joined with used hint is the URL again |
| `HttpTree.NoSplitWithoutFilename` | roarchive/http.cpp:100-115 | without a hint, or for a URL whose file name is ".", the URL is returned unchanged with no used hint |
| `HttpTree.ReHintFixedPoint` | roarchive/http.cpp:171-175 | a hinted root is a fixed point of hint application, which is why `applyHint` must start again from the original URL |
| `HttpTree.Classify` | roarchive/http.cpp:64-87 | a fetch succeeds exactly when it delivered a body; "not found" maps to `NoSuchFile` and every other failure to `IOError`, both naming the URI |
| `HttpTree.OpenHttpIStream` | roarchive/http.cpp:54-88 | the stream is built with only the filter initialiser, so its size is unknown; a failed fetch is classified; on success the body is the source pushed at the end of the chain |
| `HttpTree.Http.constructor` | roarchive/http.cpp:130-135 | the hint is applied to the URL; the root and the base URI are the hinted path, direct access is off, and the URL is kept as the original |
| `HttpTree.Http.ApplyHint` | roarchive/http.cpp:171-175 | the hinted path is recomputed from the original URL, and the root path and base URI are set from it, so earlier hints have no effect |
| `HttpTree.Http.UsedHint` | roarchive/http.cpp:177-179 | a used hint exists exactly when a hint was applied and the original URL does not end in a separator, and it is that URL's `filename()`: its last component, or the empty path for "" and the root "/" for "/" |
| `HttpTree.Http.Target` | roarchive/http.cpp:144-149 | an absolute URI is fetched as it is and a relative one is resolved against the base; the index path is always the caller's path |
| `HttpTree.Http.Istream` | roarchive/http.cpp:140-150 | one fetch of the target URI; the open fails exactly when the fetch does not deliver, with the classified error; on success the stream holds the fetched body, has no known size, and is seekable exactly when no filter is stacked |
| `HttpTree.Http.Exists` | roarchive/http.cpp:152-155 | every path is reported to exist |
| `HttpTree.Http.List` | roarchive/http.cpp:157-161 | listing always fails as not implemented |
| `HttpTree.Http.FindFile` | roarchive/http.cpp:163-169 | finding a file always fails as not implemented |
| `HttpTree.Http.HandlesSchema` | roarchive/http.cpp:181-183 | true exactly for "http" and "https" |
| `HttpTree.RelativeUriUsesHintedRoot` | roarchive/http.cpp:148-149 | after a hint, a relative path is fetched relative to the directory of the original URL, not the URL itself |
| `Archive.Factory` | roarchive/roarchive.cpp:11-26 | "inode/directory" gives the directory backend, "application/x-tar" the tarball backend (failing exactly when the hint is not found), "application/zip" always fails, any other type fails as unsupported |
| `Archive.TarBackend` | roarchive/tarball.cpp:65-81 | the tarball backend keeps the archive's path as root path, has no direct access, and its index keys are exactly the relative paths of the members under the root resolved from the hint |
| `Archive.Open` | roarchive/roarchive.cpp:28-31 | construction succeeds exactly for a directory or a tarball whose hint resolves; the archive holds the very backend the factory builds (the directory backend, or the tarball backend over the resolved root); the cached direct access flag is the backend's `directio()`, on exactly for a directory |
| `Archive.PathOf` | roarchive/roarchive.cpp:38-42 | an absolute path is returned unchanged; a relative one lies under the archive's path, and cutting that off gives it back |
| `Archive.Istream` | roarchive/roarchive.cpp:33-36 | the backend opens the path; only a tarball fails, exactly for a path missing from its index, naming path and archive |
| `Archive.DirectPathIsOpenedFile` | roarchive/roarchive.hpp:52-61 | when an archive offers direct access, the path `path()` gives is the very file `istream` opens |
| `Archive.TarballMemberOpens` | roarchive/tarball.cpp:109-112 | in a tarball archive as the constructor builds it, with or without a hint, the FIRST member under the root with a given relative path opens under that path, reading that member's range with the size of its data |

## Left out

- Network fetching: the process-wide fetch client with its four workers and
  the fetch itself. A fetch is a parameter (`FetchResponse`, or a function
  from URI to response); only its error classification is modelled.
- The URI library: whether a URI is absolute, and resolving a relative URI
  against a base. Both are parameters (`UriLibrary`).
- Boost.Iostreams internals: filter chains are counted, not run, and the
  gzip/zlib filters, `SubStreamDevice` and the 64 KiB buffer set-up are not
  modelled. A tar stream is its byte range and size; its bytes are not read
  through the descriptor.
- Tar decoding and content-type sniffing: the member list, the shared
  descriptor and the MIME string are inputs.
- File streams (`FileIStream`): the directory backend's result is the path it
  opens.
- `Archive.Istream`: for a directory archive the open always succeeds in the
  model, because a missing file only shows when the filesystem stream fails,
  which is filesystem I/O.
- Zip: its backend only throws, so it appears in the factory as a failure.
- Command-line tools and test programs, which only do I/O.
- Logging: every `LOGTHROW` site also writes a log record before throwing.
  Only the exception is modelled (a `Failure`), not the log output.
- `utility::isPathPrefix` and `utility::cutPathPrefix` are not part of this
  model's source. They are modelled on boost's component iteration, where the
  root directory is the first component of an absolute path.
- Paths: `path.string()` index keys are represented by the path value itself.
  Joining onto a path that ends with a separator keeps its "." component
  ("x/" and "f" give "x/./f" where boost gives "x/f"); the two name the same
  file, but `Directory.Istream` and `Archive.PathOf` return the longer form.
  A trailing separator and a trailing "/." are the same path here. Appending
  a separator to "/" gives "/" rather than boost's "//" root name.
- Integer widths: sizes and offsets are unbounded. `end - start` cannot wrap
  for members the index was built from, because a member's end is its start
  plus its size.
- `Streams.Source.ReadInto`: on a short read the model fails without touching the
  buffer, while the real read may have filled part of it before throwing.
- `Streams.Read`: which exception a non-seekable stream raises (a failed
  seek, or an oversized buffer after `tellg` reports -1) is not told apart;
  both are `StreamFailure`.
- `Tarball.HintFileAtRoot`: stated only for hints other than "" and "/",
  which are not file names of members.
