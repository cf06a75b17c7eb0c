/** How the HTTP proxy parser splits a client stream into header and body (section 3 of
    RFC 7230), however the stream is cut into chunks. */
module HttpHeader {
  import opened Bytes

  const CR: byte := 13
  const LF: byte := 10
  const MAX_HEADER_BYTES: nat := 65536

  /** Two line feeds at i. */
  predicate ShortAt(b: bytes, i: nat) {
    i + 1 < |b| && b[i] == LF && b[i + 1] == LF
  }

  /** Two carriage-return line-feed pairs at i. */
  predicate LongAt(b: bytes, i: nat) {
    i + 3 < |b| && b[i] == CR && b[i + 1] == LF && b[i + 2] == CR && b[i + 3] == LF
  }

  /** An empty line, in either form, ends at k. */
  predicate EndsAt(b: bytes, k: nat) {
    k <= |b| && ((k >= 2 && ShortAt(b, k - 2)) || (k >= 4 && LongAt(b, k - 4)))
  }

  /** The least place from `from` on where an empty line ends. */
  function EndFrom(b: bytes, from: nat): Option<nat>
    decreases |b| - from
  {
    if from > |b| then None else if EndsAt(b, from) then Some(from) else EndFrom(b, from + 1)
  }

  function HeaderEnd(b: bytes): Option<nat> {
    EndFrom(b, 0)
  }

  lemma {:induction false} EndFromIsLeast(b: bytes, from: nat)
    ensures match EndFrom(b, from)
            case Some(k) => from <= k <= |b| && EndsAt(b, k) && forall j :: from <= j < k ==> !EndsAt(b, j)
            case None => forall j :: from <= j ==> !EndsAt(b, j)
    decreases |b| - from
  {
    if from <= |b| && !EndsAt(b, from) {
      EndFromIsLeast(b, from + 1);
    }
  }

  /** What decides it: the first place, and nothing else. */
  lemma HeaderEndIs(b: bytes, k: nat)
    ensures HeaderEnd(b) == Some(k) <==> EndsAt(b, k) && forall j :: 0 <= j < k ==> !EndsAt(b, j)
    ensures HeaderEnd(b) == None <==> forall j :: 0 <= j ==> !EndsAt(b, j)
  {
    EndFromIsLeast(b, 0);
  }

  lemma EndsAtPrefix(a: bytes, b: bytes, k: nat)
    requires k <= |a|
    ensures EndsAt(a + b, k) == EndsAt(a, k)
  {
  }

  /** Once found, the header end stays where it is, whatever follows; and an end within what
      has been read is found. */
  lemma PrefixStable(a: bytes, b: bytes)
    ensures HeaderEnd(a).Some? ==> HeaderEnd(a + b) == HeaderEnd(a)
    ensures HeaderEnd(a + b).Some? && HeaderEnd(a + b).value <= |a| ==> HeaderEnd(a) == HeaderEnd(a + b)
  {
    EndFromIsLeast(a, 0);
    EndFromIsLeast(a + b, 0);
    forall k | 0 <= k <= |a|
      ensures EndsAt(a + b, k) == EndsAt(a, k)
    {
      EndsAtPrefix(a, b, k);
    }
  }

  /** The scan goes by where an empty line starts, and tries the short form first. */
  method FindHeaderEnd(buf: bytes) returns (r: Option<nat>)
    ensures r == HeaderEnd(buf)
  {
    hide HeaderEnd;
    var i := 0;
    while i < |buf| - 1
      invariant 0 <= i && (i <= |buf| - 1 || i == 0)
      invariant forall s :: 0 <= s < i ==> !ShortAt(buf, s) && !LongAt(buf, s)
    {
      if buf[i] == LF && buf[i + 1] == LF {
        Located(buf, i, i + 2);
        return Some(i + 2);
      }
      if i + 3 < |buf| && buf[i] == CR && buf[i + 1] == LF && buf[i + 2] == CR && buf[i + 3] == LF {
        Located(buf, i, i + 4);
        return Some(i + 4);
      }
      i := i + 1;
    }
    NotLocated(buf, i);
    return None;
  }

  /** The first empty line to start is the first to end. */
  lemma Located(buf: bytes, i: nat, k: nat)
    requires forall s :: 0 <= s < i ==> !ShortAt(buf, s) && !LongAt(buf, s)
    requires (k == i + 2 && ShortAt(buf, i)) || (k == i + 4 && LongAt(buf, i))
    ensures HeaderEnd(buf) == Some(k)
  {
    forall j | 0 <= j < k
      ensures !EndsAt(buf, j)
    {
      assert j >= 2 ==> !ShortAt(buf, j - 2);
      assert j >= 4 ==> !LongAt(buf, j - 4);
    }
    HeaderEndIs(buf, k);
  }

  lemma NotLocated(buf: bytes, i: nat)
    requires i >= |buf| - 1
    requires forall s :: 0 <= s < i ==> !ShortAt(buf, s) && !LongAt(buf, s)
    ensures HeaderEnd(buf) == None
  {
    forall j | 0 <= j
      ensures !EndsAt(buf, j)
    {
      assert j >= 2 ==> !ShortAt(buf, j - 2);
      assert j >= 4 ==> !LongAt(buf, j - 4);
    }
    HeaderEndIs(buf, 0);
  }

  // Accumulating.

  /** Header found after this many bytes of the buffer; or the two ways to fail. */
  datatype Split = Split(headerLen: nat, buf: bytes, unread: seq<bytes>) | TooLarge | Disconnected

  function Accumulate(buf: bytes, chunks: seq<bytes>): Split
    decreases |chunks|
  {
    match HeaderEnd(buf)
    case Some(k) => Split(k, buf, chunks)
    case None =>
      if |buf| > MAX_HEADER_BYTES then TooLarge
      else if chunks == [] then Disconnected
      else Accumulate(buf + chunks[0], chunks[1..])
  }

  /** The client's socket: chunks of any size, then the end. */
  class ChunkReader {
    var chunks: seq<bytes>

    constructor (chunks: seq<bytes>)
      ensures this.chunks == chunks
    {
      this.chunks := chunks;
    }

    method Read() returns (value: Option<bytes>)
      modifies this
      ensures old(chunks) == [] ==> value == None && chunks == []
      ensures old(chunks) != [] ==> value == Some(old(chunks)[0]) && chunks == old(chunks)[1..]
    {
      if chunks == [] {
        return None;
      }
      value := Some(chunks[0]);
      chunks := chunks[1..];
    }
  }

  method ReadHeader(initialChunk: bytes, reader: ChunkReader) returns (r: Split)
    modifies reader
    ensures r == Accumulate(initialChunk, old(reader.chunks))
    ensures r.Split? ==> r.unread == reader.chunks
  {
    hide HeaderEnd;
    var buf := initialChunk;
    var headerBytesLen := FindHeaderEnd(buf);
    while headerBytesLen.None?
      invariant headerBytesLen == HeaderEnd(buf)
      invariant Accumulate(buf, reader.chunks) == Accumulate(initialChunk, old(reader.chunks))
      decreases |reader.chunks|
    {
      if |buf| > MAX_HEADER_BYTES {
        return TooLarge;
      }
      var value := reader.Read();
      if value.None? {
        return Disconnected;
      }
      buf := buf + value.value;
      headerBytesLen := FindHeaderEnd(buf);
    }
    r := Split(headerBytesLen.value, buf, reader.chunks);
  }

  /** What the result must be for a stream, whatever its chunks. */
  predicate SplitOf(s: bytes, r: Split) {
    match HeaderEnd(s)
    case Some(k) =>
      (r.Split? && r.headerLen == k <= |r.buf| && k <= |s| &&
       r.buf[..k] == s[..k] && r.buf[k..] + Flatten(r.unread) == s[k..]) ||
      (k > 65537 && r == TooLarge)
    case None => r == if |s| > 65536 then TooLarge else Disconnected
  }

  /** For every chunking of a stream: if its header ends within 65537 bytes, header and body
      are the same; if it has no end, the failure is the same. */
  lemma {:induction false} SplitIndependent(buf: bytes, chunks: seq<bytes>)
    ensures SplitOf(buf + Flatten(chunks), Accumulate(buf, chunks))
    decreases |chunks|
  {
    hide HeaderEnd;
    var s := buf + Flatten(chunks);
    PrefixStable(buf, Flatten(chunks));
    HeaderInside(buf);
    if HeaderEnd(buf).Some? {
      var k := HeaderEnd(buf).value;
      assert s[..k] == buf[..k] && s[k..] == buf[k..] + Flatten(chunks);
    } else if |buf| > MAX_HEADER_BYTES {
    } else if chunks == [] {
      assert s == buf;
    } else {
      assert s == (buf + chunks[0]) + Flatten(chunks[1..]);
      SplitIndependent(buf + chunks[0], chunks[1..]);
    }
  }

  lemma HeaderInside(buf: bytes)
    ensures HeaderEnd(buf).Some? ==> HeaderEnd(buf).value <= |buf|
  {
    EndFromIsLeast(buf, 0);
  }

  /** The bound is exact: whether a stream is split or refused depends on its chunks exactly
      when its header ends after 65537 bytes. */
  lemma DependsExactly(s: bytes)
    ensures (exists a, b :: a + b == s && Accumulate(a, [b]) == TooLarge) && Accumulate(s, []).Split?
            <==> HeaderEnd(s).Some? && HeaderEnd(s).value > 65537
  {
    hide HeaderEnd;
    HeaderInside(s);
    if HeaderEnd(s).Some? && HeaderEnd(s).value > MAX_HEADER_BYTES + 1 {
      var a, b := s[..MAX_HEADER_BYTES + 1], s[MAX_HEADER_BYTES + 1..];
      assert a + b == s;
      PrefixStable(a, b);
      HeaderInside(a);
      assert Accumulate(a, [b]) == TooLarge;
    }
    forall a, b | a + b == s && Accumulate(a, [b]) == TooLarge && Accumulate(s, []).Split?
      ensures HeaderEnd(s).Some? && HeaderEnd(s).value > MAX_HEADER_BYTES + 1
    {
      OneChunk(b);
      SplitIndependent(a, [b]);
    }
  }

  lemma OneChunk(b: bytes)
    ensures Flatten([b]) == b
  {
    assert [b][1..] == [];
  }

  // The rewrite.

  /** What follows the handshake into the tunnel: for a plain request the rewritten header
      goes in front. Rewriting is text processing and is a parameter here. */
  function Leftover(r: Split, isConnect: bool, rewrite: bytes -> bytes): bytes
    requires r.Split? && r.headerLen <= |r.buf|
  {
    if isConnect then r.buf[r.headerLen..] else rewrite(r.buf[..r.headerLen]) + r.buf[r.headerLen..]
  }

  /** Body bytes pass unchanged: the leftover followed by what is still unread is the stream
      after its header, behind the rewritten header if there is one. */
  lemma BodySurvives(initial: bytes, chunks: seq<bytes>, isConnect: bool, rewrite: bytes -> bytes)
    requires Accumulate(initial, chunks).Split?
    ensures var s := initial + Flatten(chunks);
            var r := Accumulate(initial, chunks);
            && HeaderEnd(s).Some? && HeaderEnd(s).value <= |s| && r.headerLen <= |r.buf|
            && var k := HeaderEnd(s).value;
            Leftover(r, isConnect, rewrite) + Flatten(r.unread) == (if isConnect then [] else rewrite(s[..k])) + s[k..]
  {
    hide HeaderEnd;
    var s := initial + Flatten(chunks);
    var r := Accumulate(initial, chunks);
    SplitIndependent(initial, chunks);
    HeaderInside(s);
    var k := HeaderEnd(s).value;
    var body, unread := r.buf[k..], Flatten(r.unread);
    assert (rewrite(s[..k]) + body) + unread == rewrite(s[..k]) + (body + unread);
  }
}
