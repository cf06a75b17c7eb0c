/** The receive side of the tunnel: a growing buffer cut into a nonce and sealed frames.
    The fields from `flight` on are history: what is being opened at this moment, every
    byte taken from the queue so far, every payload opened so far, and whether an opening
    has failed. */
module Decoder {
  import opened Bytes
  import opened Nonces
  import opened Aead
  import opened Framing

  const NONCE_LENGTH := 12

  datatype Flight =
    | Nothing
    | LengthFrame(iv: Nonce, chunk: bytes)
    | PayloadFrame(iv: Nonce, chunk: bytes)

  type Expected = e: int | -1 <= e

  datatype RawRx = Rx(
    snSet: bool, sn: Nonce, buf: bytes, off: nat, expected: Expected,
    flight: Flight, fed: bytes, frames: seq<bytes>, corrupt: bool)

  const ZERO: Nonce := [0, 0, 0, 0, 0, 0, 0, 0, 0, 0, 0, 0]
  const EMPTY: RawRx := Rx(false, ZERO, [], 0, -1, Nothing, [], [], false)

  type Rx = d: RawRx | d.off <= |d.buf| witness EMPTY

  function Available(d: Rx): nat {
    |d.buf| - d.off
  }

  function Feed(d: Rx, data: bytes): Rx {
    d.(buf := d.buf[d.off..] + data, off := 0, fed := d.fed + data)
  }

  function TakeNonce(d: Rx): Rx
    requires Available(d) >= NONCE_LENGTH
  {
    d.(snSet := true, sn := d.buf[d.off..d.off + NONCE_LENGTH], off := d.off + NONCE_LENGTH)
  }

  function TakeLength(d: Rx): Rx
    requires Available(d) >= LENGTH_FRAME
  {
    d.(flight := LengthFrame(d.sn, d.buf[d.off..d.off + LENGTH_FRAME]),
       off := d.off + LENGTH_FRAME, sn := Next(d.sn))
  }

  function LengthOpened(d: Rx, n: nat): Rx {
    d.(flight := Nothing, expected := n)
  }

  function TakePayload(d: Rx): Rx
    requires d.expected >= 0 && Available(d) >= d.expected + TAG
  {
    d.(flight := PayloadFrame(d.sn, d.buf[d.off..d.off + d.expected + TAG]),
       off := d.off + d.expected + TAG, sn := Next(d.sn))
  }

  function PayloadOpened(d: Rx, p: bytes): Rx {
    d.(flight := Nothing, expected := -1, frames := d.frames + [p])
  }

  function Broken(d: Rx): Rx {
    d.(flight := Nothing, corrupt := true)
  }

  function Trim(d: Rx): Rx {
    if d.off > 0 then d.(buf := d.buf[d.off..], off := 0) else d
  }

  /** Nothing more can be decoded without more bytes. */
  predicate Starved(d: Rx) {
    if !d.snSet then Available(d) < NONCE_LENGTH
    else if d.expected == -1 then Available(d) < LENGTH_FRAME
    else Available(d) < d.expected + TAG
  }

  /** The bytes taken for the frame that is not finished yet. */
  function Pending(c: Cipher, m: Nonce, d: Rx): bytes {
    match d.flight
    case LengthFrame(_, chunk) => chunk
    case PayloadFrame(_, chunk) => if d.expected >= 0 then c.seal(m, Be16(d.expected)) + chunk else chunk
    case Nothing => if d.expected >= 0 then c.seal(m, Be16(d.expected)) else []
  }

  ghost predicate FlightOk(m: Nonce, d: Rx) {
    match d.flight
    case LengthFrame(iv, chunk) =>
      iv == m && |chunk| == LENGTH_FRAME && d.expected == -1 && d.sn == Next(m)
    case PayloadFrame(iv, chunk) =>
      d.expected >= 0 && iv == Next(m) && |chunk| == d.expected + TAG && d.sn == Next(Next(m))
    case Nothing => d.sn == if d.expected >= 0 then Next(m) else m
  }

  function ServerNonce(d: Rx): Nonce {
    if |d.fed| >= NONCE_LENGTH then d.fed[..NONCE_LENGTH] else ZERO
  }

  /** The nonce of the frame being decoded now. */
  function FrameNonce(d: Rx): Nonce {
    Bump(ServerNonce(d), 2 * |d.frames|)
  }

  /** Payloads whose lengths the opener accepts. */
  predicate Payloads(ps: seq<bytes>) {
    forall i :: 0 <= i < |ps| ==> |ps[i]| <= MAX_OPEN_LENGTH
  }

  /** What every byte taken so far has become: first the server nonce, then exactly the
      sealed form of every payload opened, then the unfinished frame, then the buffer. */
  ghost predicate Rep(c: Cipher, d: Rx) {
    if !d.snSet then
      d.off == 0 && d.fed == d.buf && d.frames == [] && d.expected == -1 && d.flight.Nothing? && !d.corrupt
    else
      && |d.fed| >= NONCE_LENGTH
      && Payloads(d.frames)
      && d.expected <= MAX_OPEN_LENGTH
      && ServerNonce(d) + SealFrames(c, ServerNonce(d), d.frames) <= d.fed
      && (d.corrupt ==> ServerNonce(d) + SealFrames(c, ServerNonce(d), d.frames) != d.fed)
      && (!d.corrupt ==>
            && FlightOk(FrameNonce(d), d)
            && d.fed == ServerNonce(d) + SealFrames(c, ServerNonce(d), d.frames)
                        + (Pending(c, FrameNonce(d), d) + d.buf[d.off..]))
  }

  lemma FeedRep(c: Cipher, d: Rx, data: bytes)
    requires Rep(c, d)
    ensures Rep(c, Feed(d, data))
    ensures |d.fed| >= NONCE_LENGTH ==> ServerNonce(Feed(d, data)) == ServerNonce(d)
  {
    var e := Feed(d, data);
    if d.snSet {
      assert ServerNonce(e) == ServerNonce(d);
      if !d.corrupt {
        var head := ServerNonce(d) + SealFrames(c, ServerNonce(d), d.frames);
        var pending := Pending(c, FrameNonce(d), d);
        assert e.buf[e.off..] == d.buf[d.off..] + data;
        AppendTail(head, pending, d.buf[d.off..], data);
      }
    }
  }

  lemma AppendTail(head: bytes, pending: bytes, rest: bytes, data: bytes)
    ensures (head + (pending + rest)) + data == head + (pending + (rest + data))
  {
  }

  lemma TakeNonceRep(c: Cipher, d: Rx)
    requires Rep(c, d) && !d.snSet && Available(d) >= NONCE_LENGTH
    ensures Rep(c, TakeNonce(d))
    ensures Bump(ServerNonce(d), 0) == ServerNonce(d)
  {
    var e := TakeNonce(d);
    var n := ServerNonce(e);
    assert SealFrames(c, n, e.frames) == [];
    assert FrameNonce(e) == n;
    assert e.fed == n + e.buf[e.off..];
    assert e.fed == n + [] + ([] + e.buf[e.off..]);
  }

  lemma TakeLengthRep(c: Cipher, d: Rx)
    requires Rep(c, d) && d.snSet && !d.corrupt && d.flight.Nothing? && d.expected == -1
    requires Available(d) >= LENGTH_FRAME
    ensures Rep(c, TakeLength(d))
  {
    var e := TakeLength(d);
    assert d.buf[d.off..] == e.flight.chunk + e.buf[e.off..];
    assert [] + d.buf[d.off..] == d.buf[d.off..];
  }

  lemma LengthOpenedRep(c: Cipher, d: Rx, n: nat)
    requires Gcm(c) && Rep(c, d) && d.snSet && !d.corrupt && d.flight.LengthFrame?
    requires OpenLength(c, d.flight.iv, d.flight.chunk) == Some(n)
    ensures Rep(c, LengthOpened(d, n))
  {
    OpenLengthExact(c, d.flight.iv, d.flight.chunk, n);
  }

  lemma TakePayloadRep(c: Cipher, d: Rx)
    requires Rep(c, d) && d.snSet && !d.corrupt && d.flight.Nothing? && d.expected >= 0
    requires Available(d) >= d.expected + TAG
    ensures Rep(c, TakePayload(d))
  {
    var e := TakePayload(d);
    var sealedLength := c.seal(FrameNonce(d), Be16(d.expected));
    assert d.buf[d.off..] == e.flight.chunk + e.buf[e.off..];
    assert sealedLength + (e.flight.chunk + e.buf[e.off..]) == (sealedLength + e.flight.chunk) + e.buf[e.off..];
  }

  lemma PayloadOpenedRep(c: Cipher, d: Rx, p: bytes)
    requires Gcm(c) && Rep(c, d) && d.snSet && !d.corrupt && d.flight.PayloadFrame?
    requires c.open(d.flight.iv, d.flight.chunk) == Some(p)
    ensures |p| == d.expected
    ensures Rep(c, PayloadOpened(d, p))
  {
    var e := PayloadOpened(d, p);
    var n, m := ServerNonce(d), FrameNonce(d);
    assert d.flight.chunk == c.seal(Next(m), p);
    assert |p| == d.expected;
    assert Pending(c, m, d) == SealFrame(c, m, p);
    var rest := d.buf[d.off..];
    assert d.fed == n + SealFrames(c, n, e.frames) + ([] + rest) by {
      SealFramesSnoc(c, n, d.frames, p);
      FrameJoins(n, SealFrames(c, n, d.frames), SealFrame(c, m, p), rest);
    }
    NextFrameNonce(n, |d.frames|);
    assert ServerNonce(e) == n && FrameNonce(e) == Next(Next(m));
    assert Pending(c, FrameNonce(e), e) == [];
  }

  lemma NextFrameNonce(n: Nonce, k: nat)
    ensures Bump(n, 2 * (k + 1)) == Next(Next(Bump(n, 2 * k)))
  {
    BumpTwo(Bump(n, 2 * k));
    BumpAdd(n, 2 * k, 2);
  }

  lemma FrameJoins(n: bytes, frames: bytes, frame: bytes, rest: bytes)
    ensures n + frames + (frame + rest) == n + (frames + frame) + ([] + rest)
  {
  }

  lemma TrimRep(c: Cipher, d: Rx)
    requires Rep(c, d)
    ensures Rep(c, Trim(d)) && Available(Trim(d)) == Available(d) && Trim(d).off == 0
    ensures Trim(d).buf == d.buf[d.off..]
  {
    assert Trim(d).buf[Trim(d).off..] == d.buf[d.off..];
  }

  /** What failed to open has been taken from the stream and is not among the frames. */
  lemma BrokenRep(c: Cipher, d: Rx)
    requires Rep(c, d) && d.snSet && !d.corrupt && !d.flight.Nothing?
    ensures Rep(c, Broken(d))
  {
    assert |Pending(c, FrameNonce(d), d)| > 0;
  }

  /** On a stream sealed by an honest server the buffer always holds the start of the
      frames not yet opened. */
  lemma HonestRest(c: Cipher, d: Rx, more: bytes, ps: seq<bytes>)
    requires Gcm(c) && Rep(c, d) && d.snSet && !d.corrupt && Sized(ps)
    requires d.fed + more == ServerNonce(d) + SealFrames(c, ServerNonce(d), ps)
    ensures d.frames <= ps
    ensures Pending(c, FrameNonce(d), d) + (d.buf[d.off..] + more) == SealFrames(c, FrameNonce(d), ps[|d.frames|..])
  {
    var n := ServerNonce(d);
    var todo := Pending(c, FrameNonce(d), d) + (d.buf[d.off..] + more);
    assert SealFrames(c, n, d.frames) + todo == SealFrames(c, n, ps) by {
      DropNonce(n, SealFrames(c, n, d.frames), Pending(c, FrameNonce(d), d), d.buf[d.off..], more,
                SealFrames(c, n, ps), d.fed);
    }
    FramesArePrefix(c, n, d.frames, todo, ps);
  }

  lemma DropNonce(n: bytes, sealed: bytes, pending: bytes, rest: bytes, more: bytes, all: bytes, fed: bytes)
    requires fed == n + sealed + (pending + rest) && fed + more == n + all
    ensures sealed + (pending + (rest + more)) == all
  {
    assert fed + more == n + (sealed + (pending + (rest + more)));
    ConcatCancel(n, sealed + (pending + (rest + more)), n, all);
  }

  /** A length frame taken from an honest stream opens to the length of the next payload. */
  lemma HonestLength(c: Cipher, d: Rx, more: bytes, ps: seq<bytes>)
    requires Gcm(c) && Rep(c, d) && d.snSet && !d.corrupt && d.flight.LengthFrame?
    requires Payloads(ps)
    requires d.fed + more == ServerNonce(d) + SealFrames(c, ServerNonce(d), ps)
    ensures |d.frames| < |ps|
    ensures OpenLength(c, d.flight.iv, d.flight.chunk) == Some(|ps[|d.frames|]|)
  {
    HonestRest(c, d, more, ps);
    var m, todo := FrameNonce(d), ps[|d.frames|..];
    assert todo != [];
    var p := todo[0];
    assert p == ps[|d.frames|];
    StartsWithLength(c, m, p, d.flight.chunk, d.buf[d.off..] + more, SealFrames(c, Bump(m, 2), todo[1..]));
    OpenLengthExact(c, m, d.flight.chunk, |p|);
  }

  lemma StartsWithLength(c: Cipher, m: Nonce, p: bytes, first: bytes, rest: bytes, after: bytes)
    requires Gcm(c) && |first| == LENGTH_FRAME && first + rest == SealFrame(c, m, p) + after
    ensures first == c.seal(m, Be16(|p|)) && rest == c.seal(Next(m), p) + after
  {
    var sealedLength, sealed := c.seal(m, Be16(|p|)), c.seal(Next(m), p);
    assert SealFrame(c, m, p) + after == sealedLength + (sealed + after);
    ConcatCancel(first, rest, sealedLength, sealed + after);
  }

  /** A payload frame taken from an honest stream opens to the next payload. */
  lemma HonestPayload(c: Cipher, d: Rx, more: bytes, ps: seq<bytes>)
    requires Gcm(c) && Rep(c, d) && d.snSet && !d.corrupt && d.flight.PayloadFrame?
    requires Payloads(ps)
    requires d.fed + more == ServerNonce(d) + SealFrames(c, ServerNonce(d), ps)
    ensures |d.frames| < |ps|
    ensures c.open(d.flight.iv, d.flight.chunk) == Some(ps[|d.frames|])
  {
    HonestRest(c, d, more, ps);
    var m, todo := FrameNonce(d), ps[|d.frames|..];
    assert todo != [];
    var p := todo[0];
    assert p == ps[|d.frames|];
    StartsWithFrame(c, m, p, d.expected, d.flight.chunk, d.buf[d.off..] + more,
                    SealFrames(c, Bump(m, 2), todo[1..]));
  }

  lemma StartsWithFrame(c: Cipher, m: Nonce, p: bytes, len: nat, chunk: bytes, rest: bytes, after: bytes)
    requires Gcm(c) && len < 65536 && |p| < 65536 && |chunk| == len + TAG
    requires (c.seal(m, Be16(len)) + chunk) + rest == SealFrame(c, m, p) + after
    ensures c.open(Next(m), chunk) == Some(p)
  {
    var sealedLength := c.seal(m, Be16(len));
    assert (sealedLength + chunk) + rest == sealedLength + (chunk + rest);
    StartsWithLength(c, m, p, sealedLength, chunk + rest, after);
    SameLength(c, m, len, |p|);
    ConcatCancel(chunk, rest, c.seal(Next(m), p), after);
  }

  lemma SameLength(c: Cipher, m: Nonce, i: nat, j: nat)
    requires Gcm(c) && i < 65536 && j < 65536 && c.seal(m, Be16(i)) == c.seal(m, Be16(j))
    ensures i == j
  {
    SealInjective(c, m, Be16(i), Be16(j));
    Be16RoundTrip(i, []);
    Be16RoundTrip(j, []);
  }

  /** When nothing more can be decoded, the bytes taken are a nonce and whole frames exactly
      when nothing is left over, and then the payloads opened are those frames. */
  lemma StarvedIsComplete(c: Cipher, d: Rx, ps: seq<bytes>)
    requires Gcm(c) && Rep(c, d) && d.snSet && !d.corrupt && d.flight.Nothing? && Starved(d)
    requires Payloads(ps)
    requires d.fed == ServerNonce(d) + SealFrames(c, ServerNonce(d), ps)
    ensures d.frames == ps && d.expected == -1 && Available(d) == 0
  {
    assert d.fed + [] == d.fed;
    HonestRest(c, d, [], ps);
    var m, todo := FrameNonce(d), ps[|d.frames|..];
    var rest := d.buf[d.off..];
    assert rest + [] == rest;
    if todo != [] {
      var p := todo[0];
      assert p == ps[|d.frames|];
      var after := SealFrames(c, Bump(m, 2), todo[1..]);
      SealFrameLength(c, m, p);
      if d.expected >= 0 {
        StartsWithLength(c, m, p, c.seal(m, Be16(d.expected)), rest, after);
        SameLength(c, m, d.expected, |p|);
      }
      assert false;
    } else {
      NoPending(c, m, d);
    }
  }

  lemma NoPending(c: Cipher, m: Nonce, d: Rx)
    requires Gcm(c) && d.flight.Nothing? && Pending(c, m, d) + d.buf[d.off..] == []
    ensures d.expected == -1 && Available(d) == 0
  {
    assert |Pending(c, m, d)| == 0 && |d.buf[d.off..]| == 0;
  }
}
