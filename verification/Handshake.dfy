/** The handshake: the header the client seals, and how the Go server recognises the mode,
    finds the key, and reads the header back. */
module Handshake {
  import opened Bytes
  import opened Nonces
  import opened Aead
  import opened Framing
  import opened Destination
  import opened GoUplink

  const CLOCK_DRIFT := 120
  const MAX_HEADER := 2048

  // The client.

  /** The remainder of JavaScript: it takes the sign of the dividend. */
  function JsRem2(x: int): int {
    if x >= 0 then x % 2 else -((-x) % 2)
  }

  /** Seconds forced to the parity that tells TCP (even) from UDP (odd). */
  function Stamp(nowSec: int, isTcp: bool): int {
    if isTcp then if JsRem2(nowSec) != 0 then nowSec + 1 else nowSec
    else if JsRem2(nowSec) != 1 then nowSec + 1 else nowSec
  }

  function BuildHeader(dst: bytes, isTcp: bool, nowSec: int): bytes {
    Be32(Stamp(nowSec, isTcp)) + dst
  }

  /** Byte number `shift / 8` of the 32-bit integer that a bit operation makes of v. */
  function ShiftedByte(v: int, power: int): byte
    requires power > 0
  {
    v % TWO32 / power % 256
  }

  lemma Be32IsShifted(v: int)
    ensures Be32(v) == [ShiftedByte(v, 0x100_0000), ShiftedByte(v, 0x1_0000), ShiftedByte(v, 0x100), ShiftedByte(v, 1)]
  {
    assert v % TWO32 / 0x100_0000 < 256;
  }

  /** The client's builder fills the buffer byte by byte. */
  method BuildBrookHeader(dstBytes: bytes, isTcp: bool, clock: int) returns (header: array<byte>)
    ensures fresh(header) && header[..] == BuildHeader(dstBytes, isTcp, clock)
  {
    hide ShiftedByte, Be32;
    var nowSec := clock;
    if isTcp && JsRem2(nowSec) != 0 {
      nowSec := nowSec + 1;
    }
    if !isTcp && JsRem2(nowSec) != 1 {
      nowSec := nowSec + 1;
    }
    header := new byte[4 + |dstBytes|];
    header[0] := ShiftedByte(nowSec, 0x100_0000);
    header[1] := ShiftedByte(nowSec, 0x1_0000);
    header[2] := ShiftedByte(nowSec, 0x100);
    header[3] := ShiftedByte(nowSec, 1);
    forall i | 0 <= i < |dstBytes| {
      header[4 + i] := dstBytes[i];
    }
    Be32IsShifted(nowSec);
    assert header[..4] == Be32(nowSec) && header[4..] == dstBytes;
    assert header[..] == header[..4] + header[4..];
  }

  /** The key material of the client: hashed first in `withoutBrook` mode. */
  function ClientBase(k: Crypto, password: bytes, withoutBrook: bool): bytes {
    if withoutBrook then k.sha256(password) else password
  }

  /** The server's notion of the hash: a 32-byte password is taken as one already. */
  function PassHash(k: Crypto, password: bytes): bytes {
    if |password| == 32 then password else k.sha256(password)
  }

  /** The cipher of one direction, from the key material and that direction's nonce. */
  function CipherFor(k: Crypto, base: bytes, n: Nonce): Cipher {
    k.gcm(k.hkdf(base, n))
  }

  // The server.

  datatype Refusal =
    | NoNonce | NoLength | BadAuth | HeaderTooLarge | NoHeader | BadHeader | HeaderTooShort
    | Expired | BadDestination

  /** How a stream is taken. An accepted one carries the key material found, the nonce for
      the frames that follow, and those frames, not yet read. */
  datatype Accept =
    | Refused(why: Refusal)
    | Simple
    | Accepted(base: bytes, isTcp: bool, target: Target, cn: Nonce, rest: bytes)

  /** Both modes, the configured one first. */
  function Candidates(k: Crypto, password: bytes, defaultWithoutBrook: bool): (cs: seq<bytes>)
    ensures |cs| == 2
  {
    if defaultWithoutBrook then [PassHash(k, password), password] else [password, PassHash(k, password)]
  }

  /** The first candidate under which the length frame is authentic. */
  function FindKey(k: Crypto, cs: seq<bytes>, cn: Nonce, frame: bytes): Option<bytes> {
    if cs == [] then None
    else if CipherFor(k, cs[0], cn).open(cn, frame).Some? then Some(cs[0])
    else FindKey(k, cs[1..], cn, frame)
  }

  predicate Fresh(now: int, ts: int) {
    -CLOCK_DRIFT <= now - ts <= CLOCK_DRIFT
  }

  /** The opened header: timestamp, then destination. */
  function ReadHeader(header: bytes, base: bytes, cn: Nonce, now: int, rest: bytes): Accept {
    if |header| < 4 + 3 then Refused(HeaderTooShort)
    else
      var ts := FromBe32(header[..4]);
      if !Fresh(now, ts) then Refused(Expired)
      else
        match ParseBrookDestination(header[4..])
        case None => Refused(BadDestination)
        case Some(t) => Accepted(base, ts % 2 == 0, t, cn, rest)
  }

  ghost function OpenHeader(c: Cipher, base: bytes, cn: Nonce, len: nat, w: bytes, now: int): Accept
  {
    if len > MAX_HEADER then Refused(HeaderTooLarge)
    else if |w| < len + TAG then Refused(NoHeader)
    else
      match c.open(cn, w[..len + TAG])
      case None => Refused(BadHeader)
      case Some(header) => ReadHeader(header, base, Next(cn), now, w[len + TAG..])
  }

  ghost function EncryptedAccept(k: Crypto, password: bytes, preferHash: bool, now: int, w: bytes): Accept
    requires Sound(k)
  {
    if |w| < 12 then Refused(NoNonce)
    else if |w| < 30 then Refused(NoLength)
    else
      var cn, frame := w[..12], w[12..30];
      match FindKey(k, Candidates(k, password, preferHash), cn, frame)
      case None => Refused(BadAuth)
      case Some(base) =>
        var c := CipherFor(k, base, cn);
        var len := c.open(cn, frame);
        if len.None? || |len.value| != 2 then Refused(BadAuth)
        else OpenHeader(c, base, Next(cn), FromBe16(len.value), w[30..], now)
  }

  /** What the server makes of a stream, without any mention of reading ahead: the simple
      protocol if the stream starts with the hash and a length, else the encrypted one. */
  ghost function ServerAccept(k: Crypto, password: bytes, preferHash: bool, now: int, w: bytes): Accept
    requires Sound(k)
  {
    if |w| < 12 then Refused(NoNonce)
    else if |w| >= 34 && w[..32] == PassHash(k, password) then Simple
    else EncryptedAccept(k, password, preferHash, now, w)
  }

  lemma {:induction false} FoundKeyOpens(k: Crypto, cs: seq<bytes>, cn: Nonce, frame: bytes)
    requires Sound(k) && |frame| == LENGTH_FRAME && FindKey(k, cs, cn, frame).Some?
    ensures var base := FindKey(k, cs, cn, frame).value;
            && base in cs
            && CipherFor(k, base, cn).open(cn, frame).Some?
            && |CipherFor(k, base, cn).open(cn, frame).value| == 2
  {
    var base := FindKey(k, cs, cn, frame).value;
    if base == cs[0] && CipherFor(k, base, cn).open(cn, frame).Some? {
      var c := CipherFor(k, base, cn);
      assert frame == c.seal(cn, c.open(cn, frame).value);
    } else {
      FoundKeyOpens(k, cs[1..], cn, frame);
    }
  }

  // The code reads ahead, and gives back what it read when the stream is not what it looked like.

  /** `cnRead` is the client nonce if it was already read, else empty. */
  method HandleEncryptedBrookStream(
      k: Crypto, client: Conn, cnRead: bytes, password: bytes, preferHash: bool, now: int)
    returns (r: Accept)
    requires Sound(k) && (cnRead == [] || |cnRead| == 12)
    modifies client
    ensures r == EncryptedAccept(k, password, preferHash, now, cnRead + old(client.Unread()))
    ensures (r.Accepted? ==> client.Unread() == r.rest) && !r.Simple?
  {
    hide Next, FromBe32, ParseBrookDestination, Be16;
    ghost var w := cnRead + client.Unread();
    var cn := cnRead;
    if |cn| != 12 {
      cn := client.ReadFull(12);
      if |cn| < 12 {
        return Refused(NoNonce);
      }
    }
    assert w == cn + client.Unread();
    var lenBuf18 := client.ReadFull(18);
    if |lenBuf18| < 18 {
      return Refused(NoLength);
    }
    assert w[..12] == cn && w[12..30] == lenBuf18 && w[30..] == client.Unread();
    var candidates := Candidates(k, password, preferHash);
    var i := 0;
    while i < |candidates| && CipherFor(k, candidates[i], cn).open(cn, lenBuf18).None?
      invariant 0 <= i <= |candidates|
      invariant FindKey(k, candidates, cn, lenBuf18) == FindKey(k, candidates[i..], cn, lenBuf18)
    {
      i := i + 1;
    }
    if i == |candidates| {
      return Refused(BadAuth);
    }
    FoundKeyOpens(k, candidates, cn, lenBuf18);
    r := OpenHeaderFrame(k, client, candidates[i], cn, lenBuf18, now);
  }

  method OpenHeaderFrame(k: Crypto, client: Conn, base: bytes, cn: Nonce, lenBuf18: bytes, now: int)
    returns (r: Accept)
    requires Sound(k) && |lenBuf18| == 18
    requires CipherFor(k, base, cn).open(cn, lenBuf18).Some?
    requires |CipherFor(k, base, cn).open(cn, lenBuf18).value| == 2
    modifies client
    ensures var c := CipherFor(k, base, cn);
            r == OpenHeader(c, base, Next(cn), FromBe16(c.open(cn, lenBuf18).value), old(client.Unread()), now)
    ensures (r.Accepted? ==> client.Unread() == r.rest) && !r.Simple?
  {
    hide Next, FromBe32, ParseBrookDestination, Be16;
    var nonce := new byte[12](i requires 0 <= i < 12 => cn[i]);
    assert nonce[..] == cn;
    var ca := CipherFor(k, base, cn);
    var plainLen := ca.open(cn, lenBuf18).value;
    GoNextNonce(nonce);
    var headerLen := FromBe16(plainLen);
    if headerLen > MAX_HEADER {
      return Refused(HeaderTooLarge);
    }
    var payloadBuf := client.ReadFull(headerLen + 16);
    if |payloadBuf| < headerLen + 16 {
      return Refused(NoHeader);
    }
    var plainHeader := ca.open(nonce[..], payloadBuf);
    if plainHeader.None? {
      return Refused(BadHeader);
    }
    GoNextNonce(nonce);
    r := ReadHeader(plainHeader.value, base, nonce[..], now, client.initial + client.wire);
  }

  /** Detection of the simple protocol by its first twelve bytes, then by the next twenty;
      if those do not match, all that was read is put back. */
  method HandleBrookStream(k: Crypto, client: Conn, password: bytes, preferHash: bool, now: int)
    returns (r: Accept, conn: Conn)
    requires Sound(k)
    modifies client
    ensures r == ServerAccept(k, password, preferHash, now, old(client.Unread()))
    ensures r.Accepted? ==> conn.Unread() == r.rest
    ensures r.Simple? ==> conn.Unread() == old(client.Unread())
  {
    hide EncryptedAccept;
    ghost var w := client.Unread();
    conn := client;
    var passHash := PassHash(k, password);
    var first12 := client.ReadFull(12);
    if |first12| < 12 {
      r := Refused(NoNonce);
      return;
    }
    if first12 == passHash[..12] {
      var rem22 := client.ReadFull(22);
      assert w == (first12 + rem22) + client.Unread();
      conn := client.Rewound(first12 + rem22);
      if |rem22| == 22 && rem22[..20] == passHash[12..32] {
        HashFirst(w, first12, rem22, passHash);
        r := Simple;
      } else {
        HashFirst(w, first12, rem22, passHash);
        assert [] + conn.Unread() == w;
        r := HandleEncryptedBrookStream(k, conn, [], password, preferHash, now);
      }
    } else {
      assert w == first12 + client.Unread();
      assert |w| >= 32 ==> w[..32][..12] == first12;
      r := HandleEncryptedBrookStream(k, client, first12, password, preferHash, now);
    }
  }

  lemma HashFirst(w: bytes, first12: bytes, rem22: bytes, passHash: bytes)
    requires |passHash| == 32 && |first12| == 12 && first12 == passHash[..12]
    requires first12 + rem22 <= w && |rem22| <= 22 && (|rem22| < 22 ==> w == first12 + rem22)
    ensures |rem22| == 22 && rem22[..20] == passHash[12..32] <==> |w| >= 34 && w[..32] == passHash
  {
    if |rem22| == 22 {
      assert w[..34] == first12 + rem22;
      assert w[..32] == first12 + rem22[..20];
      assert passHash == passHash[..12] + passHash[12..32];
      assert w[..32][12..] == rem22[..20];
    }
  }

  // Agreement.

  /** A candidate other than the client's own key material does not open the length frame.
      This is what the authentication of the cipher is for; it cannot hold of all keys at
      once, so it is stated for the two candidates and this frame only. */
  ghost predicate OthersReject(k: Crypto, password: bytes, base: bytes, cn: Nonce, frame: bytes) {
    forall cand :: cand in [password, PassHash(k, password)] && cand != base ==>
      CipherFor(k, cand, cn).open(cn, frame).None?
  }

  /** The stream is not taken for the simple protocol. */
  ghost predicate NotSimple(k: Crypto, password: bytes, w: bytes) {
    |w| >= 34 ==> w[..32] != PassHash(k, password)
  }

  lemma FindsKey(k: Crypto, password: bytes, preferHash: bool, base: bytes, cn: Nonce, b: bytes)
    requires Sound(k)
    requires OthersReject(k, password, base, cn, CipherFor(k, base, cn).seal(cn, b))
    ensures var cs := Candidates(k, password, preferHash);
            FindKey(k, cs, cn, CipherFor(k, base, cn).seal(cn, b)) == if base in cs then Some(base) else None
  {
    var cs := Candidates(k, password, preferHash);
    var frame := CipherFor(k, base, cn).seal(cn, b);
    assert CipherFor(k, base, cn).open(cn, frame) == Some(b);
    assert FindKey(k, cs[1..][1..], cn, frame) == None;
    assert cs[0] in [password, PassHash(k, password)] && cs[1] in [password, PassHash(k, password)];
    assert cs[1..][0] == cs[1];
  }

  /** The one thing the two sides do not agree on: a 32-byte password in `withoutBrook` mode
      is hashed by the client and not by the server. */
  lemma KeyAgreement(k: Crypto, password: bytes, withoutBrook: bool, preferHash: bool)
    requires Sound(k)
    ensures ClientBase(k, password, withoutBrook) in Candidates(k, password, preferHash) <==>
            (withoutBrook && |password| == 32 ==> k.sha256(password) == password)
  {
    assert |k.sha256(password)| == 32;
  }

  lemma StampParity(nowSec: int, isTcp: bool)
    requires nowSec >= 0
    ensures nowSec <= Stamp(nowSec, isTcp) <= nowSec + 1
    ensures (Stamp(nowSec, isTcp) % TWO32) % 2 == 0 <==> isTcp
    ensures nowSec + 1 < TWO32 ==> Stamp(nowSec, isTcp) % TWO32 == Stamp(nowSec, isTcp)
  {
    var s := Stamp(nowSec, isTcp);
    assert s == TWO32 * (s / TWO32) + s % TWO32;
  }

  /** Which clock differences the server takes: 120 seconds either way of the stamp, and the
      stamp is one second ahead when the client's second had the wrong parity. */
  lemma ClockWindow(client: int, server: int, isTcp: bool)
    requires 0 <= client && client + 1 < TWO32
    ensures var ahead := if (client % 2 == 0) == isTcp then 0 else 1;
            Fresh(server, Stamp(client, isTcp) % TWO32) <==> -120 + ahead <= server - client <= 120 + ahead
    ensures -119 <= server - client <= 120 ==> Fresh(server, Stamp(client, isTcp) % TWO32)
  {
    StampParity(client, isTcp);
  }

  lemma HeaderReads(dst: bytes, isTcp: bool, client: int, base: bytes, cn: Nonce, server: int, rest: bytes)
    requires client >= 0 && |dst| >= 3
    ensures ReadHeader(BuildHeader(dst, isTcp, client), base, cn, server, rest) ==
              if !Fresh(server, Stamp(client, isTcp) % TWO32) then Refused(Expired)
              else
                match ParseBrookDestination(dst)
                case None => Refused(BadDestination)
                case Some(t) => Accepted(base, isTcp, t, cn, rest)
  {
    var header := BuildHeader(dst, isTcp, client);
    assert header[..4] == Be32(Stamp(client, isTcp)) && header[4..] == dst;
    Be32RoundTrip(Stamp(client, isTcp));
    StampParity(client, isTcp);
  }

  lemma OpensSealedHeader(c: Cipher, base: bytes, cn: Nonce, header: bytes, rest: bytes, now: int)
    requires Gcm(c) && |header| <= 2048
    ensures OpenHeader(c, base, Next(cn), |header|, c.seal(Next(cn), header) + rest, now) ==
            ReadHeader(header, base, Bump(cn, 2), now, rest)
  {
    var sealed := c.seal(Next(cn), header);
    assert (sealed + rest)[..|header| + TAG] == sealed && (sealed + rest)[|header| + TAG..] == rest;
    BumpTwo(cn);
  }

  /** What the client puts on the wire first. */
  function Hello(k: Crypto, base: bytes, cn: Nonce, header: bytes): bytes {
    cn + SealFrame(CipherFor(k, base, cn), cn, header)
  }

  lemma HelloParts(k: Crypto, base: bytes, cn: Nonce, header: bytes, rest: bytes)
    requires Sound(k)
    ensures var w, c := Hello(k, base, cn, header) + rest, CipherFor(k, base, cn);
            && |w| >= 34 && w[..12] == cn && w[12..30] == c.seal(cn, Be16(|header|))
            && w[30..] == c.seal(Next(cn), header) + rest
  {
    var c := CipherFor(k, base, cn);
    var head, body := c.seal(cn, Be16(|header|)), c.seal(Next(cn), header);
    assert Hello(k, base, cn, header) + rest == cn + (head + (body + rest));
    assert |head| == 18 && |body| >= 16;
  }

  /** For every mode, either candidate order and any clocks: what the server makes of the
      client's first bytes, in every case. */
  lemma HandshakeExact(
      k: Crypto, password: bytes, withoutBrook: bool, preferHash: bool, dst: bytes, isTcp: bool,
      cn: Nonce, client: int, server: int, rest: bytes)
    requires Sound(k) && 3 <= |dst| <= 2044 && client >= 0
    requires var base := ClientBase(k, password, withoutBrook);
             var header := BuildHeader(dst, isTcp, client);
             && NotSimple(k, password, Hello(k, base, cn, header) + rest)
             && OthersReject(k, password, base, cn, CipherFor(k, base, cn).seal(cn, Be16(|header|)))
    ensures var base := ClientBase(k, password, withoutBrook);
            ServerAccept(k, password, preferHash, server,
                         Hello(k, base, cn, BuildHeader(dst, isTcp, client)) + rest) ==
              if withoutBrook && |password| == 32 && k.sha256(password) != password then Refused(BadAuth)
              else if !Fresh(server, Stamp(client, isTcp) % TWO32) then Refused(Expired)
              else
                match ParseBrookDestination(dst)
                case None => Refused(BadDestination)
                case Some(t) => Accepted(base, isTcp, t, Bump(cn, 2), rest)
  {
    hide Stamp, Be32, SealFrame, Hello, ParseBrookDestination, BuildHeader, Fresh, OpenHeader, ReadHeader, Be16;
    var base := ClientBase(k, password, withoutBrook);
    var header := BuildHeader(dst, isTcp, client);
    HeaderLength(dst, isTcp, client);
    var c := CipherFor(k, base, cn);
    HelloParts(k, base, cn, header, rest);
    FindsKey(k, password, preferHash, base, cn, Be16(|header|));
    KeyAgreement(k, password, withoutBrook, preferHash);
    Be16RoundTrip(|header|, []);
    OpensSealedHeader(c, base, cn, header, rest, server);
    HeaderReads(dst, isTcp, client, base, Bump(cn, 2), server, rest);
  }

  lemma HeaderLength(dst: bytes, isTcp: bool, client: int)
    ensures |BuildHeader(dst, isTcp, client)| == |dst| + 4
  {
  }

  /** The promise to the user: a valid destination gets through in either mode, whichever
      mode the server tries first, with clocks up to 119 seconds apart one way and 120 the
      other, except for a 32-byte password in `withoutBrook` mode. Both sides then agree on
      destination, protocol, key material, next nonce, and where the next frame starts. */
  lemma HandshakeAgreement(
      k: Crypto, password: bytes, withoutBrook: bool, preferHash: bool, t: Target, isTcp: bool,
      cn: Nonce, client: int, server: int, rest: bytes)
    requires Sound(k) && Encodable(t)
    requires 0 <= client && client + 1 < TWO32 && -119 <= server - client <= 120
    requires withoutBrook ==> |password| != 32
    requires var base := ClientBase(k, password, withoutBrook);
             var header := BuildHeader(Encode(t), isTcp, client);
             && NotSimple(k, password, Hello(k, base, cn, header) + rest)
             && OthersReject(k, password, base, cn, CipherFor(k, base, cn).seal(cn, Be16(|header|)))
    ensures var base := ClientBase(k, password, withoutBrook);
            ServerAccept(k, password, preferHash, server,
                         Hello(k, base, cn, BuildHeader(Encode(t), isTcp, client)) + rest)
            == Accepted(base, isTcp, t, Bump(cn, 2), rest)
  {
    hide Stamp, Be32, SealFrame, Hello, BuildHeader, Encode, Encodable, ParseBrookDestination, ServerAccept;
    DestinationRoundTrip(t);
    ClockWindow(client, server, isTcp);
    HandshakeExact(k, password, withoutBrook, preferHash, Encode(t), isTcp, cn, client, server, rest);
  }

  // Streams of any origin.

  /** The simple protocol is recognised by its first 32 bytes, once its two length bytes are
      there: the password's hash, or the password itself if it has 32 bytes. */
  lemma SimpleIsTaken(k: Crypto, password: bytes, preferHash: bool, now: int, length: bytes, rest: bytes)
    requires Sound(k) && |length| == 2
    ensures var hash := if |password| == 32 then password else k.sha256(password);
            ServerAccept(k, password, preferHash, now, hash + length + rest) == Simple
  {
    hide EncryptedAccept;
    var hash := PassHash(k, password);
    assert |hash| == 32;
    assert (hash + length + rest)[..32] == hash;
  }

  /** Nothing else is: a stream that is shorter, or begins with anything else. */
  lemma OnlyHashIsSimple(k: Crypto, password: bytes, preferHash: bool, now: int, w: bytes)
    requires Sound(k)
    requires |w| < 34 || !((if |password| == 32 then password else k.sha256(password)) <= w)
    ensures !ServerAccept(k, password, preferHash, now, w).Simple?
  {
    hide OpenHeader;
    NeverSimple(k, password, preferHash, now, w);
  }

  lemma NeverSimple(k: Crypto, password: bytes, preferHash: bool, now: int, w: bytes)
    requires Sound(k)
    ensures !EncryptedAccept(k, password, preferHash, now, w).Simple?
  {
  }

  /** What it takes to be accepted in encrypted mode: the stream is a greeting sealed under one
      of the two candidate keys, whose header has a fresh stamp and a destination; the parity
      of the stamp, the destination, the nonce two steps on and the rest of the stream are
      what the server goes on with. */
  lemma AcceptedIsAuthentic(k: Crypto, password: bytes, preferHash: bool, now: int, w: bytes)
    requires Sound(k) && ServerAccept(k, password, preferHash, now, w).Accepted?
    ensures |w| >= 30
    ensures var r := ServerAccept(k, password, preferHash, now, w);
            && r.base in [password, PassHash(k, password)]
            && r.cn == Bump(w[..12], 2)
            && exists header: bytes ::
                 && w == Hello(k, r.base, w[..12], header) + r.rest
                 && 7 <= |header| <= 2048
                 && -120 <= now - FromBe32(header[..4]) <= 120
                 && (r.isTcp <==> FromBe32(header[..4]) % 2 == 0)
                 && ParseBrookDestination(header[4..]) == Some(r.target)
  {
    hide ParseBrookDestination, FromBe32, Next, Be16, FromBe16, SealFrame;
    var r := ServerAccept(k, password, preferHash, now, w);
    var cn, frame := w[..12], w[12..30];
    var cs := Candidates(k, password, preferHash);
    FoundKeyOpens(k, cs, cn, frame);
    var base := FindKey(k, cs, cn, frame).value;
    var c := CipherFor(k, base, cn);
    var len := c.open(cn, frame).value;
    var n := FromBe16(len);
    var chunk := w[30..][..n + TAG];
    var header := c.open(Next(cn), chunk).value;
    assert frame == c.seal(cn, len) && chunk == c.seal(Next(cn), header);
    assert |header| == n;
    Be16RoundTrip(n, len);
    BumpTwo(cn);
    GreetingJoins(k, base, cn, header, r.rest, w);
  }

  /** And conversely: any such greeting, whoever made it, is accepted, unless it is taken for
      the simple protocol or the other candidate opens it too. */
  lemma GreetingIsAccepted(
      k: Crypto, password: bytes, preferHash: bool, base: bytes, cn: Nonce, header: bytes, now: int, rest: bytes)
    requires Sound(k) && base in [password, PassHash(k, password)] && 7 <= |header| <= 2048
    requires -120 <= now - FromBe32(header[..4]) <= 120 && ParseBrookDestination(header[4..]).Some?
    requires NotSimple(k, password, Hello(k, base, cn, header) + rest)
    requires OthersReject(k, password, base, cn, CipherFor(k, base, cn).seal(cn, Be16(|header|)))
    ensures ServerAccept(k, password, preferHash, now, Hello(k, base, cn, header) + rest) ==
            Accepted(base, FromBe32(header[..4]) % 2 == 0, ParseBrookDestination(header[4..]).value, Bump(cn, 2), rest)
  {
    hide SealFrame, Hello, ParseBrookDestination, OpenHeader, Be16, FromBe32;
    var c := CipherFor(k, base, cn);
    HelloParts(k, base, cn, header, rest);
    FindsKey(k, password, preferHash, base, cn, Be16(|header|));
    Be16RoundTrip(|header|, []);
    OpensSealedHeader(c, base, cn, header, rest, now);
  }

  /** Of two candidates that open the length frame the configured mode's is taken. */
  lemma PreferredFirst(k: Crypto, password: bytes, preferHash: bool, now: int, w: bytes)
    requires Sound(k) && |w| >= 30
    requires var preferred := if preferHash then PassHash(k, password) else password;
             CipherFor(k, preferred, w[..12]).open(w[..12], w[12..30]).Some?
    ensures var r := ServerAccept(k, password, preferHash, now, w);
            r.Accepted? ==> r.base == if preferHash then PassHash(k, password) else password
  {
    hide ParseBrookDestination, FromBe32, Next, FromBe16;
  }

  lemma GreetingJoins(k: Crypto, base: bytes, cn: Nonce, header: bytes, rest: bytes, w: bytes)
    requires Sound(k) && |w| >= 30 + |header| + TAG && w[..12] == cn && |header| < 65536
    requires var c := CipherFor(k, base, cn);
             && w[12..30] == c.seal(cn, Be16(|header|))
             && w[30..][..|header| + TAG] == c.seal(Next(cn), header) && rest == w[30..][|header| + TAG..]
    ensures w == Hello(k, base, cn, header) + rest
  {
    hide Next, Be16;
    var c := CipherFor(k, base, cn);
    assert w == w[..12] + w[12..30] + w[30..];
    assert w[30..] == w[30..][..|header| + TAG] + rest;
    assert Hello(k, base, cn, header) == cn + (c.seal(cn, Be16(|header|)) + c.seal(Next(cn), header));
  }
}
