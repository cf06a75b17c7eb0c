/** What the icon script builds around the checksum: chunks (section 3.2 of RFC 2083) and
    unfiltered scanlines. */
module Png {
  import opened Bytes
  import opened Crc32

  datatype Chunk = Chunk(kind: octets, data: octets)

  /** A word, most significant byte first. */
  function Four(w: word): (b: octets)
    ensures |b| == 4
  {
    [Top(w), Top(w << 8), Top(w << 16), Top(w << 24)]
  }

  function Top(w: word): octet {
    (w >> 24) as octet
  }

  function FromFour(b: octets): word
    requires |b| == 4
  {
    (Wide(b[0]) << 24) | (Wide(b[1]) << 16) | (Wide(b[2]) << 8) | Wide(b[3])
  }

  lemma FourRoundTrip(w: word)
    ensures FromFour(Four(w)) == w
  {
    hide Top, Wide;
    TopAt(w);
    TopAt(w << 8);
    TopAt(w << 16);
    TopAt(w << 24);
    Digits(w);
  }

  lemma TopAt(w: word)
    ensures Wide(Top(w)) == w >> 24
  {
  }

  lemma Digits(w: word)
    ensures ((w >> 24) << 24) | (((w << 8) >> 24) << 16) | (((w << 16) >> 24) << 8) | ((w << 24) >> 24) == w
  {
  }

  function LengthWord(n: nat): word
    requires n < 0x1_0000_0000
  {
    n as word
  }

  /** A chunk fits its four-byte length. */
  predicate Sized(c: Chunk) {
    |c.kind| == 4 && |c.data| < 0x1_0000_0000
  }

  /** Length, kind and data, checksum of kind and data. */
  function Create(c: Chunk): octets
    requires Sized(c)
  {
    Four(LengthWord(|c.data|)) + (c.kind + c.data) + Four(Crc(c.kind + c.data))
  }

  /** A reader that trusts nothing: exact length, and the checksum must fit. */
  function Read(b: octets): Option<Chunk> {
    if |b| < 12 || |b| - 12 >= 0x1_0000_0000 || FromFour(b[..4]) != LengthWord(|b| - 12) then None
    else
      var body := b[4..|b| - 4];
      if Four(Crc(body)) != b[|b| - 4..] then None else Some(Chunk(body[..4], body[4..]))
  }

  lemma CreateParts(length: octets, body: octets, sum: octets)
    requires |length| == 4 && |sum| == 4
    ensures var b := length + body + sum;
            |b| == |body| + 8 && b[..4] == length && b[4..|b| - 4] == body && b[|b| - 4..] == sum
  {
  }

  /** What the script writes can be read back. */
  lemma ChunkRoundTrip(c: Chunk)
    requires Sized(c)
    ensures Read(Create(c)) == Some(c)
  {
    hide Crc, Four, FromFour, LengthWord;
    var body := c.kind + c.data;
    CreateParts(Four(LengthWord(|c.data|)), body, Four(Crc(body)));
    FourRoundTrip(LengthWord(|c.data|));
    assert body[..4] == c.kind && body[4..] == c.data;
  }

  /** A chunk whose kind and data were changed within four neighbouring bytes is refused. */
  lemma DamagedChunkRefused(c: Chunk, before: octets, x: octets, y: octets, after: octets)
    requires Sized(c) && c.kind + c.data == before + x + after
    requires |x| == |y| <= 4 && x != y
    ensures Read(Four(LengthWord(|c.data|)) + (before + y + after) + Four(Crc(c.kind + c.data))) == None
  {
    hide Crc, Four, FromFour, LengthWord;
    var body := before + y + after;
    var sum := Four(Crc(c.kind + c.data));
    CreateParts(Four(LengthWord(|c.data|)), body, sum);
    BurstDetected(before, x, y, after);
    FourRoundTrip(Crc(body));
    FourRoundTrip(Crc(c.kind + c.data));
  }

  /** The script concatenates buffers. */
  method CreateChunk(kind: octets, data: octets) returns (out: octets)
    requires Sized(Chunk(kind, data))
    ensures out == Create(Chunk(kind, data))
  {
    hide LengthWord, Four, Crc;
    var lengthBuf := Four(LengthWord(|data|));
    var bodyBuf := kind + data;
    var crcVal := TableCrc(bodyBuf);
    out := lengthBuf + bodyBuf + Four(crcVal);
  }

  // Scanlines.

  datatype Pixel = Pixel(r: octet, g: octet, b: octet, a: octet)

  function Rgba(p: Pixel): octets {
    [p.r, p.g, p.b, p.a]
  }

  /** The first n pixels of row y. */
  function Pixels(get: (nat, nat) -> Pixel, y: nat, n: nat): (row: octets)
    ensures |row| == 4 * n
  {
    if n == 0 then [] else Pixels(get, y, n - 1) + Rgba(get(n - 1, y))
  }

  /** The first h rows, each after a filter byte of zero. */
  function Rows(get: (nat, nat) -> Pixel, width: nat, h: nat): (raw: octets)
    ensures |raw| == h * (width * 4 + 1)
  {
    if h == 0 then []
    else
      assert h * (width * 4 + 1) == (h - 1) * (width * 4 + 1) + (width * 4 + 1);
      Rows(get, width, h - 1) + ([0] + Pixels(get, h - 1, width))
  }

  lemma {:induction false} PixelInRow(get: (nat, nat) -> Pixel, y: nat, n: nat, x: nat)
    requires x < n
    ensures Pixels(get, y, n)[4 * x..4 * x + 4] == Rgba(get(x, y))
    decreases n
  {
    if x < n - 1 {
      PixelInRow(get, y, n - 1, x);
      assert Pixels(get, y, n)[4 * x..4 * x + 4] == Pixels(get, y, n - 1)[4 * x..4 * x + 4];
    }
  }

  lemma RowsFit(width: nat, y: nat, h: nat)
    requires y < h
    ensures y * (width * 4 + 1) + (width * 4 + 1) <= h * (width * 4 + 1)
  {
    assert (y + 1) * (width * 4 + 1) <= h * (width * 4 + 1);
  }

  lemma LastRow(get: (nat, nat) -> Pixel, width: nat, h: nat)
    requires h > 0
    ensures Rows(get, width, h) == Rows(get, width, h - 1) + ([0] + Pixels(get, h - 1, width))
  {
  }

  /** Where the bytes of row y stand. */
  lemma {:induction false} RowAt(get: (nat, nat) -> Pixel, width: nat, h: nat, y: nat)
    requires y < h
    ensures var at := y * (width * 4 + 1);
            && at + (width * 4 + 1) <= |Rows(get, width, h)|
            && Rows(get, width, h)[at..at + (width * 4 + 1)] == [0] + Pixels(get, y, width)
    decreases h
  {
    hide Pixels, Rows;
    RowsFit(width, y, h);
    var last := [0] + Pixels(get, h - 1, width);
    LastRow(get, width, h);
    if y < h - 1 {
      RowAt(get, width, h - 1, y);
      StillThere(Rows(get, width, h - 1), last, y * (width * 4 + 1), width * 4 + 1);
    } else {
      AtEnd(Rows(get, width, h - 1), last);
    }
  }

  lemma StillThere(a: octets, b: octets, at: nat, len: nat)
    requires at + len <= |a|
    ensures (a + b)[at..at + len] == a[at..at + len]
  {
  }

  lemma AtEnd(a: octets, b: octets)
    ensures (a + b)[|a|..|a| + |b|] == b
  {
  }

  lemma Inside(raw: octets, at: nat, len: nat, i: nat, j: nat)
    requires at + len <= |raw| && i <= j <= len
    ensures raw[at..at + len][i..j] == raw[at + i..at + j]
  {
    var a, b := raw[at..at + len][i..j], raw[at + i..at + j];
    assert forall k :: 0 <= k < j - i ==> a[k] == raw[at..at + len][i + k] == raw[at + i + k] == b[k];
  }

  /** Every pixel of the image is found at its place in the raw data. */
  lemma PixelAt(get: (nat, nat) -> Pixel, width: nat, h: nat, x: nat, y: nat)
    requires y < h && x < width
    ensures var at := y * (width * 4 + 1);
            && at + 4 * x + 5 <= |Rows(get, width, h)|
            && Rows(get, width, h)[at..at + 1] == [0]
            && Rows(get, width, h)[at + (1 + 4 * x)..at + (5 + 4 * x)] == Rgba(get(x, y))
  {
    hide Rows, Pixels, Rgba;
    RowAt(get, width, h, y);
    PixelInRow(get, y, width, x);
    var at := y * (width * 4 + 1);
    PixelInside(Rows(get, width, h), at, width, Pixels(get, y, width), x);
  }

  lemma PixelInside(raw: octets, at: nat, width: nat, row: octets, x: nat)
    requires at + (width * 4 + 1) <= |raw| && |row| == 4 * width && x < width
    requires raw[at..at + (width * 4 + 1)] == [0] + row
    ensures raw[at..at + 1] == [0] && raw[at + (1 + 4 * x)..at + (5 + 4 * x)] == row[4 * x..4 * x + 4]
  {
    Inside(raw, at, width * 4 + 1, 0, 1);
    Inside(raw, at, width * 4 + 1, 1 + 4 * x, 5 + 4 * x);
    assert ([0] + row)[1 + 4 * x..5 + 4 * x] == row[4 * x..4 * x + 4];
  }

  method PutPixel(raw: array<octet>, start: nat, offset: nat, p: Pixel)
    requires start <= offset && offset + 4 <= raw.Length
    modifies raw
    ensures raw[..start] == old(raw[..start])
    ensures raw[start..offset + 4] == old(raw[start..offset]) + Rgba(p)
  {
    raw[offset], raw[offset + 1], raw[offset + 2], raw[offset + 3] := p.r, p.g, p.b, p.a;
    assert raw[offset..offset + 4] == Rgba(p);
    assert raw[start..offset + 4] == raw[start..offset] + raw[offset..offset + 4];
  }

  /** One row: the filter byte, then four bytes a pixel, at a running offset. */
  method FillRow(raw: array<octet>, start: nat, width: nat, y: nat, get: (nat, nat) -> Pixel) returns (offset: nat)
    requires start + (width * 4 + 1) <= raw.Length
    modifies raw
    ensures offset == start + (width * 4 + 1)
    ensures raw[..start] == old(raw[..start])
    ensures raw[start..offset] == [0] + Pixels(get, y, width)
  {
    hide Rgba;
    offset := start;
    raw[offset] := 0;
    offset := offset + 1;
    var x := 0;
    while x < width
      invariant x <= width && offset == start + 1 + 4 * x
      invariant raw[..start] == old(raw[..start])
      invariant raw[start..offset] == [0] + Pixels(get, y, x)
    {
      PutPixel(raw, start, offset, get(x, y));
      offset := offset + 4;
      x := x + 1;
    }
  }

  lemma RowBelow(get: (nat, nat) -> Pixel, width: nat, y: nat, above: octets, row: octets, all: octets, start: nat)
    requires above == Rows(get, width, y) && row == [0] + Pixels(get, y, width)
    requires start <= |all| && all[..start] == above && all[start..] == row
    ensures all == Rows(get, width, y + 1)
  {
    hide Pixels;
    assert all == above + row;
  }

  /** One more row below those already filled. */
  method AddRow(raw: array<octet>, start: nat, width: nat, y: nat, get: (nat, nat) -> Pixel) returns (offset: nat)
    requires start + (width * 4 + 1) <= raw.Length && raw[..start] == Rows(get, width, y)
    modifies raw
    ensures offset == start + (width * 4 + 1)
    ensures raw[..offset] == Rows(get, width, y + 1)
  {
    hide Pixels, Rows;
    offset := FillRow(raw, start, width, y, get);
    var all := raw[..offset];
    assert all[..start] == raw[..start] && all[start..] == raw[start..offset];
    RowBelow(get, width, y, raw[..start], raw[start..offset], all, start);
  }

  /** The fill of the whole image. */
  method FillScanlines(width: nat, height: nat, get: (nat, nat) -> Pixel) returns (raw: array<octet>)
    ensures fresh(raw) && raw[..] == Rows(get, width, height)
  {
    hide Pixels, Rows;
    NoRows(get, width);
    raw := new octet[height * (width * 4 + 1)];
    var offset, y := 0, 0;
    while y < height
      invariant y <= height && fresh(raw) && raw.Length == height * (width * 4 + 1)
      invariant offset == y * (width * 4 + 1)
      invariant offset <= raw.Length && raw[..offset] == Rows(get, width, y)
    {
      RowsFit(width, y, height);
      NextRow(width, y);
      offset := AddRow(raw, offset, width, y, get);
      y := y + 1;
    }
    assert raw[..] == raw[..offset];
  }

  lemma NoRows(get: (nat, nat) -> Pixel, width: nat)
    ensures Rows(get, width, 0) == []
  {
  }

  lemma NextRow(width: nat, y: nat)
    ensures (y + 1) * (width * 4 + 1) == y * (width * 4 + 1) + (width * 4 + 1)
  {
  }
}
