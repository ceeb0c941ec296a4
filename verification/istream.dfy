/** Input streams: the size and seekability an `IStream` reports, which a
    stacked filter chain invalidates, and reading a whole stream. */
module Streams {
  import opened Errors

  type Byte = bv8

  /** `IStream::FilterInit`: `None` is the empty std::function; `Some(k)` is
      an initialiser that pushes `k` filters onto the stream's chain. */
  type FilterInit = Option<nat>

  /** The number of filters on the chain once the initialiser has run; an
      empty initialiser is not invoked. */
  function Pushed(filterInit: FilterInit): nat
  {
    match filterInit
    case None => 0
    case Some(k) => k
  }

  class IStream {
    /** `fis_.size()`: the number of filters and devices on the chain. */
    var chain: nat
    /** Whether the initialiser stacked a filter; fixed at construction. */
    const stacked: bool
    var seekable: bool
    /** The file size, if known. */
    var size: Option<nat>
    /** The file timestamp; a negative value stands for "now". */
    const timestamp: int

    /** A stacked filter chain hides the size and seekability: once stacked,
        a stream never reports either. */
    ghost predicate Valid()
      reads this
    {
      stacked ==> size == None && !seekable
    }

    /** The constructor: the initialiser, if any, fills the chain; a stream
        with no filter reports the given size and seekability, a stacked one
        an unknown size and no seeking. */
    constructor (filterInit: FilterInit, size: Option<nat> := None, seekable: bool := true,
                 timestamp: int := -1)
      ensures Valid()
      ensures chain == Pushed(filterInit)
      ensures stacked <==> chain > 0
      ensures !stacked ==> this.size == size && this.seekable == seekable
      ensures stacked ==> this.size == None && !this.seekable
      ensures Timestamp() == timestamp
    {
      var pushed := 0;
      if filterInit.Some? {
        pushed := filterInit.value;
      }
      chain := pushed;
      stacked := pushed > 0;
      this.timestamp := timestamp;
      if pushed == 0 {
        this.size := size;
        this.seekable := seekable;
      } else {
        this.size := None;
        this.seekable := false;
      }
    }

    /** `size()`: the size last recorded; a stacked stream has none. */
    function Size(): (r: Option<nat>)
      reads this
      requires Valid()
      ensures stacked ==> r == None
    {
      size
    }

    /** `seekable()`: the seekability last recorded; a stacked stream cannot
        seek. */
    function Seekable(): (r: bool)
      reads this
      requires Valid()
      ensures stacked ==> !r
    {
      seekable
    }

    /** `timestamp()` */
    function Timestamp(): int
    {
      timestamp
    }

    /** `update`: a backend that learns the size and seekability after
        construction records them, unless a filter is stacked. */
    method Update(size: Option<nat> := None, seekable: bool := true)
      requires Valid()
      modifies this
      ensures Valid()
      ensures chain == old(chain)
      ensures !stacked ==> this.size == size && this.seekable == seekable
      ensures stacked ==> this.size == old(this.size) && this.seekable == old(this.seekable)
    {
      if !stacked {
        this.size := size;
        this.seekable := seekable;
      }
    }

    /** `fis_.push(device)`: a backend puts its source at the end of the
        chain; what the stream reports does not change. */
    method Push()
      requires Valid()
      modifies this
      ensures Valid()
      ensures chain == old(chain) + 1
      ensures size == old(size) && seekable == old(seekable)
    {
      chain := chain + 1;
    }
  }

  /** The std::istream behind `get()`: its bytes, whether it can seek, and
      its read position. */
  class Source {
    const content: seq<Byte>
    const canSeek: bool
    var pos: nat

    ghost predicate Valid()
      reads this
    {
      pos <= |content|
    }

    constructor (content: seq<Byte>, canSeek: bool)
      ensures Valid() && this.content == content && this.canSeek == canSeek && pos == 0
    {
      this.content := content;
      this.canSeek := canSeek;
      pos := 0;
    }

    /** `seekg(0, end).tellg()`: the length of the stream, or failure on a
        stream that cannot seek. */
    method SeekEnd() returns (r: Option<nat>)
      requires Valid()
      modifies this
      ensures Valid()
      ensures canSeek ==> r == Some(|content|) && pos == |content|
      ensures !canSeek ==> r == None && pos == old(pos)
    {
      if canSeek {
        pos := |content|;
        return Some(pos);
      }
      return None;
    }

    /** `seekg(0)` */
    method Rewind()
      requires Valid() && canSeek
      modifies this
      ensures Valid() && pos == 0
    {
      pos := 0;
    }

    /** `utility::binaryio::read`: reads exactly `buf.Length` bytes from the
        read position, and fails when fewer remain. */
    method ReadInto(buf: array<Byte>) returns (ok: bool)
      requires Valid()
      modifies this, buf
      ensures Valid()
      ensures ok <==> old(pos) + buf.Length <= |content|
      ensures ok ==> buf[..] == content[old(pos)..old(pos) + buf.Length]
      ensures ok ==> pos == old(pos) + buf.Length
    {
      if pos + buf.Length > |content| {
        return false;
      }
      var i := 0;
      while i < buf.Length
        invariant 0 <= i <= buf.Length
        invariant pos == old(pos) + i
        invariant buf[..i] == content[old(pos)..pos]
      {
        buf[i] := content[pos];
        pos := pos + 1;
        i := i + 1;
      }
      return true;
    }
  }

  /** `IStream::read`: the length is found by seeking to the end, then the
      whole stream is read from offset 0 into a buffer of that length. A
      stream that cannot seek fails. */
  method Read(s: Source) returns (r: Result<array<Byte>>)
    requires s.Valid()
    modifies s
    ensures s.Valid()
    ensures r.Success? <==> s.canSeek
    ensures r.Success? ==> fresh(r.value) && r.value[..] == s.content
    ensures r.Failure? ==> r.error == StreamFailure
  {
    var size := s.SeekEnd();
    if size.None? {
      return Failure(StreamFailure);
    }
    s.Rewind();
    var buf := new Byte[size.value];
    var ok := s.ReadInto(buf);
    assert ok;
    return Success(buf);
  }
}
