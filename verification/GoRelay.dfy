/** The two relay legs of the Go server over one encrypted stream. */
module GoRelay {
  import opened Bytes
  import opened Nonces
  import opened Aead
  import opened Framing

  const TCP_FRAME: nat := 2014
  const TCP_READ: nat := 32224
  const UDP_FRAME: nat := 65473
  const UDP_READ: nat := 65473
  const POOL_BUFFER: nat := 65536

  // Target to client: cut each read into chunks and seal them into one batch.

  function Chunks(b: bytes, max: nat): (cs: seq<bytes>)
    requires max > 0
    decreases |b|
  {
    if b == [] then [] else
    var n := Min(max, |b|);
    [b[..n]] + Chunks(b[n..], max)
  }

  /** Chunking is a partition: joined, the chunks are the read. */
  lemma {:induction false} ChunksJoin(b: bytes, max: nat)
    requires max > 0
    ensures Flatten(Chunks(b, max)) == b
    decreases |b|
  {
    if b != [] {
      var n := Min(max, |b|);
      ChunksJoin(b[n..], max);
      assert b == b[..n] + b[n..];
      assert Chunks(b, max)[1..] == Chunks(b[n..], max);
    }
  }

  /** No chunk is empty, and all but the last are full. */
  lemma {:induction false} ChunkSizes(b: bytes, max: nat, i: nat)
    requires max > 0 && i < |Chunks(b, max)|
    ensures 0 < |Chunks(b, max)[i]| <= max
    ensures i < |Chunks(b, max)| - 1 ==> |Chunks(b, max)[i]| == max
    decreases |b|
  {
    var n := Min(max, |b|);
    if i > 0 {
      ChunkSizes(b[n..], max, i - 1);
      assert Chunks(b, max)[i] == Chunks(b[n..], max)[i - 1];
    }
  }

  /** There are as many chunks as the length divided by the chunk size, rounded up. */
  lemma {:induction false} ChunkCount(b: bytes, max: nat)
    requires max > 0
    ensures |Chunks(b, max)| * max >= |b|
    ensures b != [] ==> (|Chunks(b, max)| - 1) * max < |b|
    decreases |b|
  {
    if b != [] {
      var rest := b[Min(max, |b|)..];
      ChunkCount(rest, max);
      var k := |Chunks(rest, max)|;
      assert |Chunks(b, max)| == k + 1;
      assert (k + 1) * max == k * max + max;
      if rest != [] {
        assert (k - 1) * max == k * max - max;
      }
    }
  }

  lemma {:induction false} SealedLength(c: Cipher, n: Nonce, ps: seq<bytes>)
    requires Gcm(c)
    ensures |SealFrames(c, n, ps)| == |Flatten(ps)| + 34 * |ps|
    decreases |ps|
  {
    if ps != [] {
      SealFrameLength(c, n, ps[0]);
      SealedLength(c, Bump(n, 2), ps[1..]);
    }
  }

  /** The length of one batch. */
  function BatchLength(n: nat, chunks: nat): nat {
    n + 34 * chunks
  }

  /** The read sizes were chosen so that a batch always fits: 32768 bytes for TCP and 65507
      for UDP are never exceeded, and both are reached. */
  lemma BatchBounds(b: bytes)
    ensures |b| <= TCP_READ ==> BatchLength(|b|, |Chunks(b, TCP_FRAME)|) <= 32768
    ensures |b| <= UDP_READ ==> BatchLength(|b|, |Chunks(b, UDP_FRAME)|) <= 65507
    ensures |b| == TCP_READ ==> BatchLength(|b|, |Chunks(b, TCP_FRAME)|) == 32768
    ensures |b| == UDP_READ ==> BatchLength(|b|, |Chunks(b, UDP_FRAME)|) == 65507
  {
    ChunkCount(b, TCP_FRAME);
    ChunkCount(b, UDP_FRAME);
  }

  /** Sealing into the batch at an offset: the runtime writes in place only if the result
      fits; otherwise it would grow another array and leave this one as it was. */
  method SealInto(c: Cipher, dst: array<byte>, at: nat, nonce: Nonce, plain: bytes)
    requires Gcm(c) && at <= dst.Length
    modifies dst
    ensures dst[..at] == old(dst[..at])
    ensures at + |plain| + TAG <= dst.Length ==> dst[at..at + |plain| + TAG] == c.seal(nonce, plain)
    ensures at + |plain| + TAG > dst.Length ==> dst[..] == old(dst[..])
  {
    var sealed := c.seal(nonce, plain);
    if at + |sealed| <= dst.Length {
      forall i | 0 <= i < |sealed| {
        dst[at + i] := sealed[i];
      }
    }
  }

  /** One frame: the length (2 bytes in, 18 out), then the payload, the nonce advanced
      after each. */
  method SealChunk(c: Cipher, sn: array<byte>, chunk: bytes, batchBuf: array<byte>, batchLen: nat) returns (newLen: nat)
    requires Gcm(c) && sn.Length == 12 && sn != batchBuf && |chunk| < 65536
    requires batchLen + |chunk| + 34 <= batchBuf.Length
    modifies sn, batchBuf
    ensures newLen == batchLen + |chunk| + 34
    ensures batchBuf[..newLen] == old(batchBuf[..batchLen]) + SealFrame(c, old(sn[..]), chunk)
    ensures sn[..] == Bump(old(sn[..]), 2)
  {
    BumpTwo(sn[..]);
    ghost var n0 := sn[..];
    SealInto(c, batchBuf, batchLen, sn[..], Be16(|chunk|));
    GoNextNonce(sn);
    newLen := batchLen + 18;
    assert batchBuf[..newLen] == batchBuf[..batchLen] + batchBuf[batchLen..newLen];
    ghost var head := batchBuf[..newLen];
    SealInto(c, batchBuf, newLen, sn[..], chunk);
    GoNextNonce(sn);
    assert batchBuf[..newLen + |chunk| + 16] == head + batchBuf[newLen..newLen + |chunk| + 16];
    newLen := newLen + |chunk| + 16;
  }

  /** The batch and the nonce after the first k chunks, which end at this offset of the read. */
  ghost predicate Batched(
    c: Cipher, sn0: Nonce, read: bytes, max: nat, offset: nat, k: nat, sn: bytes, out: bytes)
    requires max > 0
  {
    var all := Chunks(read, max);
    && k <= |all| && offset <= |read| && all[k..] == Chunks(read[offset..], max)
    && |out| == BatchLength(offset, k)
    && sn == Bump(sn0, 2 * k) && out == SealFrames(c, sn0, all[..k])
  }

  /** One pass of the sealing loop over the n bytes of a read: the batch buffer ends up
      holding the frames of the chunks of the read, the nonce two steps further per chunk. */
  method SealBatch(c: Cipher, sn: array<byte>, read: bytes, maxFrame: nat, batchBuf: array<byte>)
    returns (batchLen: nat)
    requires Gcm(c) && sn.Length == 12 && sn != batchBuf && 0 < maxFrame < 65536
    requires BatchLength(|read|, |Chunks(read, maxFrame)|) <= batchBuf.Length
    modifies sn, batchBuf
    ensures batchLen == BatchLength(|read|, |Chunks(read, maxFrame)|)
    ensures batchBuf[..batchLen] == SealFrames(c, old(sn[..]), Chunks(read, maxFrame))
    ensures sn[..] == Bump(old(sn[..]), 2 * |Chunks(read, maxFrame)|)
  {
    hide *;
    ghost var all, sn0 := Chunks(read, maxFrame), sn[..];
    ghost var k := 0;
    batchLen := 0;
    var offset := 0;
    BatchStarts(c, sn[..], read, maxFrame);
    while offset < |read|
      invariant offset <= |read|
      invariant batchLen <= batchBuf.Length
      invariant Batched(c, sn0, read, maxFrame, offset, k, sn[..], batchBuf[..batchLen])
    {
      var chunk := |read| - offset;
      if chunk > maxFrame {
        chunk := maxFrame;
      }
      BatchGrows(c, sn0, read, maxFrame, offset, k, sn[..], batchBuf[..batchLen], chunk);
      batchLen := SealChunk(c, sn, read[offset..offset + chunk], batchBuf, batchLen);
      offset := offset + chunk;
      k := k + 1;
    }
    BatchEnds(c, sn0, read, maxFrame, k, sn[..], batchBuf[..batchLen]);
  }

  lemma BatchStarts(c: Cipher, sn0: Nonce, read: bytes, max: nat)
    requires max > 0
    ensures Batched(c, sn0, read, max, 0, 0, sn0, [])
  {
    var all := Chunks(read, max);
    assert all[0..] == all && read[0..] == read && all[..0] == [];
  }

  lemma BatchEnds(c: Cipher, sn0: Nonce, read: bytes, max: nat, k: nat, sn: bytes, out: bytes)
    requires max > 0 && Batched(c, sn0, read, max, |read|, k, sn, out)
    ensures |out| == BatchLength(|read|, |Chunks(read, max)|)
    ensures out == SealFrames(c, sn0, Chunks(read, max))
    ensures sn == Bump(sn0, 2 * |Chunks(read, max)|)
  {
    var all := Chunks(read, max);
    assert all[k..] == [] && all[..k] == all;
  }

  /** The next chunk of the loop is the next chunk of the read; its frame fits the batch. */
  lemma BatchGrows(c: Cipher, sn0: Nonce, read: bytes, max: nat, offset: nat, k: nat, sn: Nonce, out: bytes, n: nat)
    requires Gcm(c) && max > 0 && offset + n <= |read| && Batched(c, sn0, read, max, offset, k, sn, out)
    requires 0 < n <= max && (n == max || offset + n == |read|)
    ensures |out| + n + 34 <= BatchLength(|read|, |Chunks(read, max)|)
    ensures Batched(c, sn0, read, max, offset + n, k + 1, Bump(sn, 2), out + SealFrame(c, sn, read[offset..offset + n]))
  {
    hide SealFrames, SealFrame, Bump, Chunks, Gcm;
    var all := Chunks(read, max);
    assert n == Min(max, |read| - offset);
    SealFrameLength(c, sn, read[offset..offset + n]);
    NextChunk(all, k, read, offset, max);
    FrameAppended(c, sn0, all, k, sn, out);
  }

  lemma NextChunk(all: seq<bytes>, k: nat, read: bytes, offset: nat, max: nat)
    requires max > 0 && k <= |all| && offset < |read| && all[k..] == Chunks(read[offset..], max)
    ensures var n := Min(max, |read| - offset);
            && k < |all| && all[k] == read[offset..offset + n]
            && all[k + 1..] == Chunks(read[offset + n..], max)
  {
    var rest, n := read[offset..], Min(max, |read| - offset);
    assert all[k..][0] == all[k] && all[k..][1..] == all[k + 1..];
    assert rest[..n] == read[offset..offset + n] && rest[n..] == read[offset + n..];
  }

  lemma FrameAppended(c: Cipher, sn0: Nonce, all: seq<bytes>, k: nat, sn: bytes, out: bytes)
    requires k < |all| && sn == Bump(sn0, 2 * k) && out == SealFrames(c, sn0, all[..k])
    ensures Bump(sn, 2) == Bump(sn0, 2 * (k + 1))
    ensures out + SealFrame(c, sn, all[k]) == SealFrames(c, sn0, all[..k + 1])
  {
    SealFramesSnoc(c, sn0, all[..k], all[k]);
    assert all[..k] + [all[k]] == all[..k + 1];
    BumpAdd(sn0, 2 * k, 2);
  }

  /** All chunks of a run of reads; an empty read adds none. */
  function AllChunks(inflow: seq<bytes>, max: nat): seq<bytes>
    requires max > 0
  {
    if inflow == [] then [] else Chunks(inflow[0], max) + AllChunks(inflow[1..], max)
  }

  lemma {:induction false} AllChunksSnoc(inflow: seq<bytes>, read: bytes, max: nat)
    requires max > 0
    ensures AllChunks(inflow + [read], max) == AllChunks(inflow, max) + Chunks(read, max)
  {
    if inflow == [] {
      assert AllChunks([read], max) == Chunks(read, max) + AllChunks([], max);
      assert inflow + [read] == [read];
    } else {
      assert (inflow + [read])[1..] == inflow[1..] + [read];
      AllChunksSnoc(inflow[1..], read, max);
    }
  }

  /** The chunks of all reads, joined, are the reads, joined. */
  lemma {:induction false} AllChunksJoin(inflow: seq<bytes>, max: nat)
    requires max > 0
    ensures Flatten(AllChunks(inflow, max)) == Flatten(inflow)
  {
    if inflow != [] {
      ChunksJoin(inflow[0], max);
      FlattenAppend(Chunks(inflow[0], max), AllChunks(inflow[1..], max));
      AllChunksJoin(inflow[1..], max);
    }
  }

  /** Every chunk is a payload whose length the client accepts, and none is empty. */
  lemma {:induction false} AllChunksFit(inflow: seq<bytes>, max: nat)
    requires 0 < max <= MAX_OPEN_LENGTH
    ensures forall i :: 0 <= i < |AllChunks(inflow, max)| ==> 0 < |AllChunks(inflow, max)[i]| <= max
  {
    if inflow != [] {
      AllChunksFit(inflow[1..], max);
      forall i | 0 <= i < |Chunks(inflow[0], max)|
        ensures 0 < |Chunks(inflow[0], max)[i]| <= max
      {
        ChunkSizes(inflow[0], max, i);
      }
    }
  }

  function FrameSize(isTcp: bool): nat {
    if isTcp then TCP_FRAME else UDP_FRAME
  }

  function ReadSize(isTcp: bool): nat {
    if isTcp then TCP_READ else UDP_READ
  }

  /** The sending side of a stream: what was written, and how many more writes succeed. */
  class Sink {
    var written: seq<bytes>
    var room: nat
    var closed: bool

    constructor (room: nat)
      ensures written == [] && this.room == room && !closed
    {
      written := [];
      this.room := room;
      closed := false;
    }

    method Close()
      modifies this`closed
      ensures closed
    {
      closed := true;
    }

    method Write(p: bytes) returns (ok: bool)
      modifies this`written, this`room
      ensures ok == (old(room) > 0)
      ensures ok ==> written == old(written) + [p] && room == old(room) - 1
      ensures !ok ==> written == old(written) && room == old(room)
    {
      ok := room > 0;
      if ok {
        written := written + [p];
        room := room - 1;
      }
    }
  }

  lemma BatchFits(read: bytes, isTcp: bool)
    requires |read| <= ReadSize(isTcp)
    ensures BatchLength(|read|, |Chunks(read, FrameSize(isTcp))|) <= 65536
  {
    BatchBounds(read);
  }

  /** The first k reads have gone out as one sealed run. */
  ghost predicate Relayed(c: Cipher, sn0: Nonce, inflow: seq<bytes>, max: nat, k: nat, sn: bytes, wire: bytes)
    requires max > 0
  {
    && k <= |inflow|
    && sn == Bump(sn0, 2 * |AllChunks(inflow[..k], max)|)
    && wire == SealFrames(c, sn0, AllChunks(inflow[..k], max))
  }

  lemma RelayStarts(c: Cipher, sn0: Nonce, inflow: seq<bytes>, max: nat)
    requires max > 0
    ensures Relayed(c, sn0, inflow, max, 0, sn0, [])
  {
    assert inflow[..0] == [];
  }

  lemma RelayGrows(c: Cipher, sn0: Nonce, inflow: seq<bytes>, max: nat, k: nat, sn: Nonce, wire: bytes)
    requires max > 0 && k < |inflow| && Relayed(c, sn0, inflow, max, k, sn, wire)
    ensures Relayed(c, sn0, inflow, max, k + 1, Bump(sn, 2 * |Chunks(inflow[k], max)|),
                    wire + SealFrames(c, sn, Chunks(inflow[k], max)))
    ensures inflow[k] == [] ==> Relayed(c, sn0, inflow, max, k + 1, sn, wire)
  {
    var before, cs := AllChunks(inflow[..k], max), Chunks(inflow[k], max);
    assert inflow[..k + 1] == inflow[..k] + [inflow[k]];
    AllChunksSnoc(inflow[..k], inflow[k], max);
    SealFramesAppend(c, sn0, before, cs);
    BumpAdd(sn0, 2 * |before|, 2 * |cs|);
    assert inflow[k] == [] ==> before + cs == before;
  }

  /** The leg from the target to the client. `inflow` is what the target sends, one element
      per successful read, and `eof` says whether the stream then ended or failed. What goes out is one sealed run of
      all the chunks of the reads whose batches were written, the nonce in step with it. */
  method RelayDown(c: Cipher, sn: array<byte>, inflow: seq<bytes>, isTcp: bool, client: Sink, eof: bool)
    returns (k: nat)
    requires Gcm(c) && sn.Length == 12 && client.written == [] && !client.closed
    requires forall i :: 0 <= i < |inflow| ==> |inflow[i]| <= ReadSize(isTcp)
    modifies sn, client
    ensures k <= |inflow|
    ensures k < |inflow| ==> client.room == 0
    ensures client.closed == (k == |inflow| && eof)
    ensures Flatten(client.written) == SealFrames(c, old(sn[..]), AllChunks(inflow[..k], FrameSize(isTcp)))
    ensures k == |inflow| ==> sn[..] == Bump(old(sn[..]), 2 * |AllChunks(inflow, FrameSize(isTcp))|)
  {
    hide SealFrames, Bump, AllChunks, Chunks, Gcm, Flatten, Relayed;
    var maxFrame := FrameSize(isTcp);
    var batchBuf := new byte[POOL_BUFFER];
    ghost var sn0 := sn[..];
    k := 0;
    RelayStarts(c, sn[..], inflow, maxFrame);
    FlattenNone();
    while k < |inflow|
      invariant k <= |inflow| && sn != batchBuf && fresh(batchBuf) && !client.closed
      invariant Relayed(c, sn0, inflow, maxFrame, k, sn[..], Flatten(client.written))
    {
      var read := inflow[k];
      RelayGrows(c, sn0, inflow, maxFrame, k, sn[..], Flatten(client.written));
      if |read| > 0 {
        ghost var wire := client.written;
        BatchFits(read, isTcp);
        RelayedWire(c, sn0, inflow, maxFrame, k, sn[..], Flatten(client.written));
        var batchLen := SealBatch(c, sn, read, maxFrame, batchBuf);
        var ok := client.Write(batchBuf[..batchLen]);
        if !ok {
          return;
        }
        FlattenSnoc(wire, batchBuf[..batchLen]);
      }
      k := k + 1;
    }
    RelayedWire(c, sn0, inflow, maxFrame, k, sn[..], Flatten(client.written));
    assert inflow[..k] == inflow;
    if eof {
      client.Close();
    }
  }

  lemma FlattenNone()
    ensures Flatten([]) == []
  {
  }

  lemma RelayedWire(c: Cipher, sn0: Nonce, inflow: seq<bytes>, max: nat, k: nat, sn: bytes, wire: bytes)
    requires max > 0 && Relayed(c, sn0, inflow, max, k, sn, wire)
    ensures wire == SealFrames(c, sn0, AllChunks(inflow[..k], max))
    ensures sn == Bump(sn0, 2 * |AllChunks(inflow[..k], max)|)
  {
  }
}
