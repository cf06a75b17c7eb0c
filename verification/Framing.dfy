/** Brook frames: a sealed two-byte length followed by the sealed payload. */
module Framing {
  import opened Bytes
  import opened Nonces
  import opened Aead

  const LENGTH_FRAME := 18
  const MAX_OPEN_LENGTH := 65535 - 16

  /** The whole frame of one payload sealed at nonce n; it uses n and its successor. */
  function SealFrame(c: Cipher, n: Nonce, p: bytes): bytes {
    c.seal(n, Be16(|p|)) + c.seal(Next(n), p)
  }

  /** A run of frames; frame i is sealed at the nonce bumped 2i times. */
  function SealFrames(c: Cipher, n: Nonce, ps: seq<bytes>): bytes
    decreases |ps|
  {
    if ps == [] then [] else SealFrame(c, n, ps[0]) + SealFrames(c, Bump(n, 2), ps[1..])
  }

  /** Every payload fits the two-byte length. */
  predicate Sized(ps: seq<bytes>) {
    forall i :: 0 <= i < |ps| ==> |ps[i]| < 65536
  }

  lemma BumpTwo(n: Nonce)
    ensures Bump(n, 1) == Next(n)
    ensures Bump(n, 2) == Next(Next(n))
  {
    assert Bump(n, 1) == Next(Bump(n, 0));
  }

  lemma {:induction false} SealFramesAppend(c: Cipher, n: Nonce, a: seq<bytes>, b: seq<bytes>)
    ensures SealFrames(c, n, a + b) == SealFrames(c, n, a) + SealFrames(c, Bump(n, 2 * |a|), b)
    decreases |a|
  {
    if a == [] {
      assert a + b == b;
    } else {
      assert (a + b)[1..] == a[1..] + b;
      SealFramesAppend(c, Bump(n, 2), a[1..], b);
      BumpAdd(n, 2, 2 * |a[1..]|);
    }
  }

  lemma SealFramesSnoc(c: Cipher, n: Nonce, a: seq<bytes>, p: bytes)
    ensures SealFrames(c, n, a + [p]) == SealFrames(c, n, a) + SealFrame(c, Bump(n, 2 * |a|), p)
  {
    SealFramesAppend(c, n, a, [p]);
    var m := Bump(n, 2 * |a|);
    assert SealFrames(c, m, [p]) == SealFrame(c, m, p) + SealFrames(c, Bump(m, 2), []);
  }

  lemma SealFrameLength(c: Cipher, n: Nonce, p: bytes)
    requires Gcm(c)
    ensures |c.seal(n, Be16(|p|))| == LENGTH_FRAME
    ensures |SealFrame(c, n, p)| == |p| + 34
  {
  }

  lemma ConcatCancel(a: bytes, x: bytes, b: bytes, y: bytes)
    requires a + x == b + y && |a| == |b|
    ensures a == b && x == y
  {
    assert (a + x)[..|a|] == a && (a + x)[|a|..] == x;
    assert (b + y)[..|b|] == b && (b + y)[|b|..] == y;
  }

  /** Equal streams that start with a frame start with the same frame. */
  lemma FrameCancel(c: Cipher, n: Nonce, p: bytes, q: bytes, x: bytes, y: bytes)
    requires Gcm(c) && |p| < 65536 && |q| < 65536
    requires SealFrame(c, n, p) + x == SealFrame(c, n, q) + y
    ensures p == q && x == y
  {
    var lp, lq := c.seal(n, Be16(|p|)), c.seal(n, Be16(|q|));
    var sp, sq := c.seal(Next(n), p), c.seal(Next(n), q);
    assert lp + (sp + x) == lq + (sq + y) by {
      assert SealFrame(c, n, p) + x == lp + (sp + x);
      assert SealFrame(c, n, q) + y == lq + (sq + y);
    }
    ConcatCancel(lp, sp + x, lq, sq + y);
    SealInjective(c, n, Be16(|p|), Be16(|q|));
    Be16RoundTrip(|p|, []);
    Be16RoundTrip(|q|, []);
    ConcatCancel(sp, x, sq, y);
    SealInjective(c, Next(n), p, q);
  }

  lemma SameFirstFrame(c: Cipher, n: Nonce, p: bytes, tf: bytes, rest: bytes, q: bytes, tp: bytes)
    requires Gcm(c) && |p| < 65536 && |q| < 65536
    requires (SealFrame(c, n, p) + tf) + rest == SealFrame(c, n, q) + tp
    ensures p == q && tf + rest == tp
  {
    assert (SealFrame(c, n, p) + tf) + rest == SealFrame(c, n, p) + (tf + rest);
    FrameCancel(c, n, p, q, tf + rest, tp);
  }

  lemma RunStarts(c: Cipher, n: Nonce, fs: seq<bytes>, rest: bytes, ps: seq<bytes>)
    requires Gcm(c) && fs != []
    requires SealFrames(c, n, fs) + rest == SealFrames(c, n, ps)
    ensures ps != []
  {
    assert SealFrames(c, n, fs) == SealFrame(c, n, fs[0]) + SealFrames(c, Bump(n, 2), fs[1..]);
    SealFrameLength(c, n, fs[0]);
  }

  lemma PrefixCons(fs: seq<bytes>, ps: seq<bytes>)
    requires fs != [] && ps != [] && fs[0] == ps[0] && fs[1..] <= ps[1..]
    ensures fs <= ps
  {
    assert fs == [fs[0]] + fs[1..] && ps == [ps[0]] + ps[1..];
  }

  /** Unique decodability: frames found at the start of a sealed run are the run's own
      frames, and what follows them is the rest of that run. */
  lemma {:induction false} FramesArePrefix(c: Cipher, n: Nonce, fs: seq<bytes>, rest: bytes, ps: seq<bytes>)
    requires Gcm(c) && Sized(fs) && Sized(ps)
    requires SealFrames(c, n, fs) + rest == SealFrames(c, n, ps)
    ensures fs <= ps
    ensures rest == SealFrames(c, Bump(n, 2 * |fs|), ps[|fs|..])
    decreases |fs|
  {
    if fs == [] {
      assert SealFrames(c, n, fs) + rest == rest;
      assert ps[0..] == ps;
    } else {
      RunStarts(c, n, fs, rest, ps);
      var m, ft, pt := Bump(n, 2), fs[1..], ps[1..];
      SameFirstFrame(c, n, fs[0], SealFrames(c, m, ft), rest, ps[0], SealFrames(c, m, pt));
      FramesArePrefix(c, m, ft, rest, pt);
      assert Bump(m, 2 * |ft|) == Bump(n, 2 * |fs|) by {
        BumpAdd(n, 2, 2 * |ft|);
      }
      assert pt[|ft|..] == ps[|fs|..];
      PrefixCons(fs, ps);
    }
  }

  /** The client's sealing routine: two nonce steps in place, one buffer out. The length
      bytes keep only the low sixteen bits of the payload length. */
  method SealFrameInPlace(c: Cipher, nonce12: array<byte>, payload: bytes) returns (out: array<byte>)
    requires Gcm(c) && nonce12.Length == 12
    modifies nonce12
    ensures fresh(out) && out[..] == SealFrame(c, old(nonce12[..]), payload)
    ensures nonce12[..] == Bump(old(nonce12[..]), 2)
  {
    BumpTwo(nonce12[..]);
    var lenBuf := Be16(|payload|);
    var iv1 := nonce12[..];
    JsNextNonce(nonce12);
    var sealedLen := c.seal(iv1, lenBuf);
    var iv2 := nonce12[..];
    JsNextNonce(nonce12);
    var sealedPayload := c.seal(iv2, payload);
    out := new byte[18 + |sealedPayload|];
    forall i | 0 <= i < 18 {
      out[i] := sealedLen[i];
    }
    forall i | 0 <= i < |sealedPayload| {
      out[18 + i] := sealedPayload[i];
    }
    assert out[..18] == sealedLen && out[18..] == sealedPayload;
    assert out[..] == out[..18] + out[18..];
  }

  /** What the length opener makes of its eighteen bytes: None for a bad tag or a length
      above the limit. */
  function OpenLength(c: Cipher, iv: Nonce, chunk18: bytes): Option<nat> {
    match c.open(iv, chunk18)
    case None => None
    case Some(b) => if |b| == 2 && FromBe16(b) <= MAX_OPEN_LENGTH then Some(FromBe16(b)) else None
  }

  lemma OpenLengthExact(c: Cipher, iv: Nonce, chunk18: bytes, n: nat)
    requires Gcm(c) && |chunk18| == LENGTH_FRAME
    ensures OpenLength(c, iv, chunk18) == Some(n) <==>
            n <= 65519 && chunk18 == c.seal(iv, Be16(n))
  {
    if n <= MAX_OPEN_LENGTH && chunk18 == c.seal(iv, Be16(n)) {
      Be16RoundTrip(n, []);
    }
    if OpenLength(c, iv, chunk18) == Some(n) {
      Be16RoundTrip(n, c.open(iv, chunk18).value);
    }
  }

  method OpenLengthInPlace(c: Cipher, nonce12: array<byte>, chunk18: bytes) returns (r: Option<nat>)
    requires Gcm(c) && nonce12.Length == 12 && |chunk18| == LENGTH_FRAME
    modifies nonce12
    ensures r == OpenLength(c, old(nonce12[..]), chunk18)
    ensures nonce12[..] == Next(old(nonce12[..]))
  {
    var iv := nonce12[..];
    JsNextNonce(nonce12);
    var lenBuf := c.open(iv, chunk18);
    if lenBuf.None? {
      return None;
    }
    assert chunk18 == c.seal(iv, lenBuf.value);
    var len := 256 * (lenBuf.value[0] as int) + lenBuf.value[1];
    r := if len > MAX_OPEN_LENGTH then None else Some(len);
  }
}
