/** The leg of the Go server from the client to the target: it opens frame after frame and
    writes each payload out. */
module GoUplink {
  import opened Bytes
  import opened Nonces
  import opened Aead
  import opened Framing
  import opened GoRelay

  /** Why the leg stopped. Only a clean end of the stream closes the target's write side. */
  datatype UpEnd = Eof | Truncated | BadLength | TooLarge | BadPayload | TargetFailed

  datatype Up = Up(payloads: seq<bytes>, end: UpEnd)

  const MAX_UP_LENGTH := POOL_BUFFER - TAG

  /** The stream of one client, as read by the server: the bytes handed back to it first,
      then the bytes still to come. */
  class Conn {
    var initial: bytes
    var wire: bytes

    ghost function Unread(): bytes
      reads this
    {
      initial + wire
    }

    constructor (initial: bytes, wire: bytes)
      ensures this.initial == initial && this.wire == wire
    {
      this.initial := initial;
      this.wire := wire;
    }

    /** Read exactly n bytes, or all there are if the stream ends before. */
    method ReadFull(n: nat) returns (got: bytes)
      modifies this
      ensures got == if n <= |old(Unread())| then old(Unread())[..n] else old(Unread())
      ensures Unread() == old(Unread())[|got|..]
    {
      ghost var all := Unread();
      got := [];
      if n <= |initial| {
        got := initial[..n];
        initial := initial[n..];
      } else {
        var m := Min(n - |initial|, |wire|);
        got := initial + wire[..m];
        initial, wire := [], wire[m..];
      }
      assert got == all[..|got|];
      assert Unread() == all[|got|..];
    }

    /** A stream that gives these bytes again before going on with what this one has left. */
    method Rewound(replay: bytes) returns (b: Conn)
      ensures fresh(b) && b.Unread() == replay + Unread()
    {
      b := new Conn(replay + initial, wire);
      assert b.Unread() == replay + (initial + wire);
    }
  }

  /** What the leg makes of a stream, with a target that takes `room` writes. A zero length
      is skipped together with its nonce step only: no payload frame is expected after it. */
  ghost function GoOpen(c: Cipher, n: Nonce, w: bytes, room: nat): Up
    requires Gcm(c)
    decreases |w|, 0
  {
    if w == [] then Up([], Eof)
    else if |w| < LENGTH_FRAME then Up([], Truncated)
    else
      match c.open(n, w[..LENGTH_FRAME])
      case None => Up([], BadLength)
      case Some(b) =>
        assert w[..LENGTH_FRAME] == c.seal(n, b);
        GoPayload(c, Next(n), FromBe16(b), w[LENGTH_FRAME..], room)
  }

  ghost function GoPayload(c: Cipher, n: Nonce, len: nat, w: bytes, room: nat): Up
    requires Gcm(c)
    decreases |w|, 1
  {
    if len == 0 then GoOpen(c, n, w, room)
    else if len > MAX_UP_LENGTH then Up([], TooLarge)
    else if |w| < len + TAG then Up([], Truncated)
    else
      match c.open(n, w[..len + TAG])
      case None => Up([], BadPayload)
      case Some(p) =>
        if room == 0 then Up([], TargetFailed)
        else
          var later := GoOpen(c, Next(n), w[len + TAG..], room - 1);
          Up([p] + later.payloads, later.end)
  }

  // The relay loop computes that, writing each payload to the target as it goes.

  /** Opening the whole stream comes to this: the payloads written, then what the rest gives. */
  ghost predicate AtLength(all: Up, c: Cipher, n: Nonce, w: bytes, room: nat, sent: seq<bytes>)
    requires Gcm(c)
  {
    var later := GoOpen(c, n, w, room);
    all == Up(sent + later.payloads, later.end)
  }

  ghost predicate AtPayload(all: Up, c: Cipher, n: Nonce, len: nat, w: bytes, room: nat, sent: seq<bytes>)
    requires Gcm(c)
  {
    var later := GoPayload(c, n, len, w, room);
    all == Up(sent + later.payloads, later.end)
  }

  lemma LengthStep(all: Up, c: Cipher, n: Nonce, w: bytes, room: nat, sent: seq<bytes>)
    requires Gcm(c) && AtLength(all, c, n, w, room, sent)
    ensures |w| < LENGTH_FRAME ==> all == Up(sent, if w == [] then Eof else Truncated)
    ensures |w| >= LENGTH_FRAME ==>
              match c.open(n, w[..LENGTH_FRAME])
              case None => all == Up(sent, BadLength)
              case Some(b) => |b| == 2 && AtPayload(all, c, Next(n), FromBe16(b), w[LENGTH_FRAME..], room, sent)
  {
    if |w| >= LENGTH_FRAME && c.open(n, w[..LENGTH_FRAME]).Some? {
      assert w[..LENGTH_FRAME] == c.seal(n, c.open(n, w[..LENGTH_FRAME]).value);
    }
  }

  lemma PayloadStep(all: Up, c: Cipher, n: Nonce, len: nat, w: bytes, room: nat, sent: seq<bytes>)
    requires Gcm(c) && AtPayload(all, c, n, len, w, room, sent)
    ensures if len == 0 then AtLength(all, c, n, w, room, sent)
            else if len > MAX_UP_LENGTH then all == Up(sent, TooLarge)
            else if |w| < len + TAG then all == Up(sent, Truncated)
            else
              match c.open(n, w[..len + TAG])
              case None => all == Up(sent, BadPayload)
              case Some(p) =>
                if room == 0 then all == Up(sent, TargetFailed)
                else AtLength(all, c, Next(n), w[len + TAG..], room - 1, sent + [p])
  {
    if 0 < len <= MAX_UP_LENGTH && len + TAG <= |w| && c.open(n, w[..len + TAG]).Some? && room > 0 {
      var p := c.open(n, w[..len + TAG]).value;
      var later := GoOpen(c, Next(n), w[len + TAG..], room - 1);
      assert sent + ([p] + later.payloads) == (sent + [p]) + later.payloads;
    }
  }

  method RelayUp(c: Cipher, cn: array<byte>, client: Conn, remote: Sink) returns (end: UpEnd)
    requires Gcm(c) && cn.Length == 12 && remote.written == [] && !remote.closed
    modifies cn, client, remote
    ensures GoOpen(c, old(cn[..]), old(client.Unread()), old(remote.room)) == Up(remote.written, end)
    ensures remote.closed == (end == Eof)
  {
    hide GoOpen, GoPayload, AtLength, AtPayload, Next, Gcm;
    ghost var all := GoOpen(c, cn[..], client.Unread(), remote.room);
    AtStart(c, cn[..], client.Unread(), remote.room);
    while true
      invariant !remote.closed
      invariant AtLength(all, c, cn[..], client.Unread(), remote.room, remote.written)
      decreases |client.Unread()|
    {
      LengthStep(all, c, cn[..], client.Unread(), remote.room, remote.written);
      var lenChunk := client.ReadFull(LENGTH_FRAME);
      if |lenChunk| < LENGTH_FRAME {
        if lenChunk == [] {
          remote.Close();
          return Eof;
        }
        return Truncated;
      }
      var plainL := c.open(cn[..], lenChunk);
      if plainL.None? {
        return BadLength;
      }
      GoNextNonce(cn);
      var l := FromBe16(plainL.value);
      PayloadStep(all, c, cn[..], l, client.Unread(), remote.room, remote.written);
      if l == 0 {
        continue;
      }
      if l > MAX_UP_LENGTH {
        return TooLarge;
      }
      var payload := client.ReadFull(l + TAG);
      if |payload| < l + TAG {
        return Truncated;
      }
      var plain := c.open(cn[..], payload);
      if plain.None? {
        return BadPayload;
      }
      GoNextNonce(cn);
      var ok := remote.Write(plain.value);
      if !ok {
        return TargetFailed;
      }
    }
  }

  lemma AtStart(c: Cipher, n: Nonce, w: bytes, room: nat)
    requires Gcm(c)
    ensures AtLength(GoOpen(c, n, w, room), c, n, w, room, [])
  {
  }

  // What it delivers.

  lemma OneStep(c: Cipher, n: Nonce, w: bytes, b: bytes, room: nat)
    requires Gcm(c) && |w| >= LENGTH_FRAME && c.open(n, w[..LENGTH_FRAME]) == Some(b)
    ensures |b| == 2 && GoOpen(c, n, w, room) == GoPayload(c, Next(n), FromBe16(b), w[LENGTH_FRAME..], room)
  {
    assert w[..LENGTH_FRAME] == c.seal(n, b);
  }

  /** No payload is delivered empty, whatever the stream. */
  lemma {:induction false} NeverEmpty(c: Cipher, n: Nonce, w: bytes, room: nat)
    requires Gcm(c)
    ensures [] !in GoOpen(c, n, w, room).payloads
    decreases |w|, 0
  {
    if |w| >= LENGTH_FRAME && c.open(n, w[..LENGTH_FRAME]).Some? {
      var b := c.open(n, w[..LENGTH_FRAME]).value;
      OneStep(c, n, w, b, room);
      NeverEmptyPayload(c, Next(n), FromBe16(b), w[LENGTH_FRAME..], room);
    }
  }

  lemma {:induction false} NeverEmptyPayload(c: Cipher, n: Nonce, len: nat, w: bytes, room: nat)
    requires Gcm(c)
    ensures [] !in GoPayload(c, n, len, w, room).payloads
    decreases |w|, 1
  {
    if len == 0 {
      NeverEmpty(c, n, w, room);
    } else if len <= MAX_UP_LENGTH && len + TAG <= |w| && c.open(n, w[..len + TAG]).Some? && room > 0 {
      var p := c.open(n, w[..len + TAG]).value;
      assert w[..len + TAG] == c.seal(n, p);
      NeverEmpty(c, Next(n), w[len + TAG..], room - 1);
    }
  }

  /** Payloads of a size this leg takes. */
  predicate Takes(ps: seq<bytes>) {
    forall i :: 0 <= i < |ps| ==> 0 < |ps[i]| <= 65520
  }

  /** A whole frame at the start of the stream is delivered. */
  lemma FrameOpens(c: Cipher, n: Nonce, p: bytes, rest: bytes, room: nat)
    requires Gcm(c) && 0 < |p| <= MAX_UP_LENGTH
    ensures GoOpen(c, n, SealFrame(c, n, p) + rest, room) ==
              if room == 0 then Up([], TargetFailed) else
              var later := GoOpen(c, Next(Next(n)), rest, room - 1);
              Up([p] + later.payloads, later.end)
  {
    var head, body := c.seal(n, Be16(|p|)), c.seal(Next(n), p);
    var w := SealFrame(c, n, p) + rest;
    assert w == head + (body + rest);
    assert w[..LENGTH_FRAME] == head && w[LENGTH_FRAME..] == body + rest;
    Be16RoundTrip(|p|, []);
    OneStep(c, n, w, Be16(|p|), room);
    assert (body + rest)[..|p| + TAG] == body && (body + rest)[|p| + TAG..] == rest;
  }

  /** A stream cut inside its first frame delivers nothing and is not a clean end. */
  lemma CutFrame(c: Cipher, n: Nonce, p: bytes, w: bytes, room: nat)
    requires Gcm(c) && 0 < |p| <= MAX_UP_LENGTH
    requires w <= SealFrame(c, n, p) && 0 < |w| < |SealFrame(c, n, p)|
    ensures GoOpen(c, n, w, room) == Up([], Truncated)
  {
    var head := c.seal(n, Be16(|p|));
    if |w| >= LENGTH_FRAME {
      assert w[..LENGTH_FRAME] == SealFrame(c, n, p)[..LENGTH_FRAME] == head;
      Be16RoundTrip(|p|, []);
      OneStep(c, n, w, Be16(|p|), room);
    }
  }

  /** From any prefix of an honest stream the target gets a prefix of the payloads: as many
      as are there in whole frames and as the target takes. The leg ends cleanly only on a
      frame boundary. */
  lemma {:induction false} UplinkPrefix(c: Cipher, n: Nonce, ps: seq<bytes>, w: bytes, room: nat)
    requires Gcm(c) && Takes(ps) && w <= SealFrames(c, n, ps)
    ensures var r := GoOpen(c, n, w, room);
            && r.payloads <= ps && |r.payloads| <= room
            && (r.end == Eof || r.end == Truncated || (r.end == TargetFailed && |r.payloads| == room))
            && (r.end == Eof ==> w == SealFrames(c, n, r.payloads))
    decreases |ps|
  {
    hide SealFrame, Next, Bump, Gcm, GoOpen;
    if w == [] {
      NothingToOpen(c, n, room);
    } else {
      var p, m := ps[0], Bump(n, 2);
      var frame, after := SealFrame(c, n, p), SealFrames(c, m, ps[1..]);
      assert SealFrames(c, n, ps) == frame + after;
      if |w| < |frame| {
        assert w <= frame by { assert w == (frame + after)[..|w|] == frame[..|w|]; }
        CutFrame(c, n, p, w, room);
      } else {
        var rest := w[|frame|..];
        SplitPrefix(frame, after, w);
        FrameOpens(c, n, p, rest, room);
        BumpTwo(n);
        if room > 0 {
          UplinkPrefix(c, m, ps[1..], rest, room - 1);
          ConsPrefix(c, n, p, ps, GoOpen(c, m, rest, room - 1).payloads);
        }
      }
    }
  }

  lemma SplitPrefix(a: bytes, b: bytes, w: bytes)
    requires w <= a + b && |a| <= |w|
    ensures w == a + w[|a|..] && w[|a|..] <= b
  {
    assert w == (a + b)[..|w|];
    assert w[..|a|] == a;
    assert w[|a|..] == b[..|w| - |a|];
  }

  lemma ConsPrefix(c: Cipher, n: Nonce, p: bytes, ps: seq<bytes>, later: seq<bytes>)
    requires ps != [] && ps[0] == p && later <= ps[1..]
    ensures [p] + later <= ps
    ensures SealFrames(c, n, [p] + later) == SealFrame(c, n, p) + SealFrames(c, Bump(n, 2), later)
  {
    assert ps == [p] + ps[1..];
    assert ([p] + later)[1..] == later;
  }

  lemma NothingToOpen(c: Cipher, n: Nonce, room: nat)
    requires Gcm(c)
    ensures GoOpen(c, n, [], room) == Up([], Eof)
  {
  }

  /** A whole honest stream is delivered whole, and cleanly. */
  lemma {:induction false} UplinkWhole(c: Cipher, n: Nonce, ps: seq<bytes>, room: nat)
    requires Gcm(c) && Takes(ps) && |ps| <= room
    ensures GoOpen(c, n, SealFrames(c, n, ps), room) == Up(ps, Eof)
    decreases |ps|
  {
    hide SealFrame, Next, Bump, Gcm, GoOpen;
    if ps == [] {
      NothingToOpen(c, n, room);
    } else {
      FrameOpens(c, n, ps[0], SealFrames(c, Bump(n, 2), ps[1..]), room);
      BumpTwo(n);
      UplinkWhole(c, Bump(n, 2), ps[1..], room - 1);
      assert ps == [ps[0]] + ps[1..];
    }
  }

  /** Sealed payloads come out as they went in exactly when none of them is empty. */
  lemma UplinkRoundTrip(c: Cipher, n: Nonce, ps: seq<bytes>, room: nat)
    requires Gcm(c) && |ps| <= room && forall i :: 0 <= i < |ps| ==> |ps[i]| <= 65520
    ensures GoOpen(c, n, SealFrames(c, n, ps), room) == Up(ps, Eof) <==> [] !in ps
  {
    if [] !in ps {
      UplinkWhole(c, n, ps, room);
    } else {
      NeverEmpty(c, n, SealFrames(c, n, ps), room);
    }
  }

  /** After an empty frame the server is one nonce step and sixteen bytes behind: it takes
      the sealed empty payload for the start of the next length frame. */
  lemma AfterEmpty(c: Cipher, n: Nonce, second: bytes, room: nat)
    requires Gcm(c)
    ensures GoOpen(c, n, SealFrame(c, n, []) + second, room) ==
            GoOpen(c, Next(n), c.seal(Next(n), []) + second, room)
  {
    var head, tag := c.seal(n, Be16(0)), c.seal(Next(n), []);
    var w := SealFrame(c, n, []) + second;
    assert w == head + (tag + second);
    assert w[..LENGTH_FRAME] == head && w[LENGTH_FRAME..] == tag + second;
    OneStep(c, n, w, Be16(0), room);
  }

  const ONE: Nonce := [1, 0, 0, 0, 0, 0, 0, 0, 0, 0, 0, 9]

  /** With a concrete cipher: nothing after the empty frame gets through. */
  lemma EmptyFrameDesynchronises()
    ensures Gcm(TOY)
    ensures GoOpen(TOY, ONE, SealFrames(TOY, ONE, [[], [7]]), 2) == Up([], BadLength)
  {
    ToyIsGcm();
    var m := Bump(ONE, 2);
    var second := SealFrames(TOY, m, [[7]]);
    assert SealFrames(TOY, ONE, [[], [7]]) == SealFrame(TOY, ONE, []) + second by {
      assert [[], [7]][1..] == [[7]];
    }
    assert second == SealFrame(TOY, m, [7]) + SealFrames(TOY, Bump(m, 2), []);
    FirstByte(m, [7]);
    AfterEmpty(TOY, ONE, second, 2);
    LostLength(Next(ONE), second);
  }

  /** The toy cipher leaves the length readable. */
  lemma FirstByte(m: Nonce, p: bytes)
    ensures |SealFrame(TOY, m, p)| >= 34 && SealFrame(TOY, m, p)[0] == |p| / 256 % 256
  {
    assert TOY.seal(m, Be16(|p|)) == ToySeal(m, Be16(|p|)) == Be16(|p|) + ToyTag(m);
    assert TOY.seal(Next(m), p) == p + ToyTag(Next(m));
  }

  lemma LostLength(n: Nonce, second: bytes)
    requires Gcm(TOY) && |second| >= 34 && second[0] != n[0]
    ensures GoOpen(TOY, n, TOY.seal(n, []) + second, 2) == Up([], BadLength)
  {
    var w := TOY.seal(n, []) + second;
    var chunk := w[..LENGTH_FRAME];
    assert chunk[16] == second[0] && chunk[2..][14] == chunk[16];
    assert ToyTag(n)[14] == n[0];
    assert ToyOpen(n, chunk) == None;
  }

  // Streams of any origin.

  /** Frames as this leg understands them: an empty one is its length frame only. */
  function Understood(c: Cipher, n: Nonce, ls: seq<bytes>): bytes
    decreases |ls|
  {
    if ls == [] then []
    else if ls[0] == [] then c.seal(n, Be16(0)) + Understood(c, Next(n), ls[1..])
    else SealFrame(c, n, ls[0]) + Understood(c, Next(Next(n)), ls[1..])
  }

  function NonEmpty(ls: seq<bytes>): seq<bytes> {
    if ls == [] then [] else (if ls[0] == [] then [] else [ls[0]]) + NonEmpty(ls[1..])
  }

  /** Payloads of at most 65520 bytes. */
  predicate Short(ls: seq<bytes>) {
    forall i :: 0 <= i < |ls| ==> |ls[i]| <= 65520
  }

  /** Nothing is delivered that was not sealed under the key, in this order and at these
      nonces; and a clean end means that the whole stream was such frames. */
  lemma {:induction false} DeliveredIsAuthentic(c: Cipher, n: Nonce, w: bytes, room: nat) returns (ls: seq<bytes>)
    requires Gcm(c)
    ensures var r := GoOpen(c, n, w, room);
            && Short(ls) && r.payloads == NonEmpty(ls) && |r.payloads| <= room
            && Understood(c, n, ls) <= w
            && (r.end == Eof <==> Understood(c, n, ls) == w)
    decreases |w|
  {
    hide Next, Be16, FromBe16, SealFrame;
    ls := [];
    if |w| >= LENGTH_FRAME && c.open(n, w[..LENGTH_FRAME]).Some? {
      var b := c.open(n, w[..LENGTH_FRAME]).value;
      OneStep(c, n, w, b, room);
      Be16RoundTrip(FromBe16(b), b);
      var len, rest := FromBe16(b), w[LENGTH_FRAME..];
      assert w == c.seal(n, Be16(len)) + rest;
      if len == 0 {
        var later := DeliveredIsAuthentic(c, Next(n), rest, room);
        ls := [[]] + later;
        ConsEmpty(c, n, later, w, rest);
      } else if len <= MAX_UP_LENGTH && len + TAG <= |rest| && c.open(Next(n), rest[..len + TAG]).Some? && room > 0 {
        var p := c.open(Next(n), rest[..len + TAG]).value;
        var after := rest[len + TAG..];
        assert rest[..len + TAG] == c.seal(Next(n), p);
        assert |p| == len && p != [];
        var later := DeliveredIsAuthentic(c, Next(Next(n)), after, room - 1);
        ls := [p] + later;
        assert w == SealFrame(c, n, p) + after by {
          FrameInFront(c, n, p, w, after);
        }
        ConsFrame(c, n, p, later, w, after);
      } else {
        Unfinished(c, n, w, len, room);
      }
    } else {
      Unopened(c, n, w, room);
    }
  }

  lemma Unopened(c: Cipher, n: Nonce, w: bytes, room: nat)
    requires Gcm(c) && (|w| < LENGTH_FRAME || c.open(n, w[..LENGTH_FRAME]).None?)
    ensures GoOpen(c, n, w, room).payloads == [] && (GoOpen(c, n, w, room).end == Eof <==> w == [])
  {
  }

  lemma Unfinished(c: Cipher, n: Nonce, w: bytes, len: nat, room: nat)
    requires Gcm(c) && |w| >= LENGTH_FRAME && len > 0
    requires GoOpen(c, n, w, room) == GoPayload(c, Next(n), len, w[LENGTH_FRAME..], room)
    requires var rest := w[LENGTH_FRAME..];
             len > MAX_UP_LENGTH || len + TAG > |rest| || c.open(Next(n), rest[..len + TAG]).None? || room == 0
    ensures GoOpen(c, n, w, room).payloads == [] && GoOpen(c, n, w, room).end != Eof
  {
  }

  lemma FrameInFront(c: Cipher, n: Nonce, p: bytes, w: bytes, after: bytes)
    requires |w| >= LENGTH_FRAME && w == c.seal(n, Be16(|p|)) + w[LENGTH_FRAME..]
    requires w[LENGTH_FRAME..] == c.seal(Next(n), p) + after
    ensures w == SealFrame(c, n, p) + after
  {
    assert w == c.seal(n, Be16(|p|)) + (c.seal(Next(n), p) + after);
  }

  lemma ConsEmpty(c: Cipher, n: Nonce, later: seq<bytes>, w: bytes, rest: bytes)
    requires w == c.seal(n, Be16(0)) + rest && Understood(c, Next(n), later) <= rest
    ensures var ls := [[]] + later;
            && NonEmpty(ls) == NonEmpty(later)
            && Understood(c, n, ls) <= w
            && (Understood(c, n, ls) == w <==> Understood(c, Next(n), later) == rest)
  {
    hide Be16, Next;
    var ls := [[]] + later;
    assert ls[1..] == later;
    PrefixBehind(c.seal(n, Be16(0)), Understood(c, Next(n), later), rest);
  }

  lemma ConsFrame(c: Cipher, n: Nonce, p: bytes, later: seq<bytes>, w: bytes, rest: bytes)
    requires p != [] && w == SealFrame(c, n, p) + rest && Understood(c, Next(Next(n)), later) <= rest
    ensures var ls := [p] + later;
            && NonEmpty(ls) == [p] + NonEmpty(later)
            && Understood(c, n, ls) <= w
            && (Understood(c, n, ls) == w <==> Understood(c, Next(Next(n)), later) == rest)
  {
    hide SealFrame, Next;
    var ls := [p] + later;
    assert ls[1..] == later;
    PrefixBehind(SealFrame(c, n, p), Understood(c, Next(Next(n)), later), rest);
  }

  lemma PrefixBehind(a: bytes, b: bytes, rest: bytes)
    requires b <= rest
    ensures a + b <= a + rest && (a + b == a + rest <==> b == rest)
  {
    assert (a + rest)[..|a + b|] == a + rest[..|b|];
    assert a + b == a + rest ==> |b| == |rest|;
  }

  /** For every stream, whoever made it: what reaches the target is payloads of frames sealed
      under the key, in order and from the start; and its write side is closed exactly if the
      stream was such frames and nothing else. */
  lemma UplinkAuthentic(c: Cipher, n: Nonce, w: bytes, room: nat)
    requires Gcm(c)
    ensures var r := GoOpen(c, n, w, room);
            exists ls: seq<bytes> ::
              && Short(ls) && r.payloads == NonEmpty(ls) && Understood(c, n, ls) <= w
              && (r.end == Eof <==> Understood(c, n, ls) == w)
  {
    hide GoOpen, Understood, NonEmpty;
    var ls := DeliveredIsAuthentic(c, n, w, room);
  }
}
