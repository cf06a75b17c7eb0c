/** Both programs together: the client tunnel against the Go server. */
module EndToEnd {
  import opened Bytes
  import opened Nonces
  import opened Aead
  import opened Framing
  import opened Tunnel
  import opened TunnelMain
  import opened TunnelRuns
  import opened TunnelResults
  import opened Destination
  import opened GoRelay
  import opened GoUplink
  import opened Handshake
  import Socks5

  /** What the user configures and asks for. */
  datatype Request = Request(
    password: bytes, withoutBrook: bool, target: Target, cn: Nonce, clock: int, leftover: bytes, lastAttempt: bool)

  /** The client's side of one connection: always TCP. */
  function ClientConfig(k: Crypto, q: Request): Config
    requires Encodable(q.target)
  {
    var base := ClientBase(k, q.password, q.withoutBrook);
    Config((n: Nonce) => CipherFor(k, base, n), q.cn, BuildHeader(Encode(q.target), true, q.clock),
           q.leftover, q.lastAttempt)
  }

  lemma ConfigIsGood(k: Crypto, q: Request)
    requires Sound(k) && Encodable(q.target)
    ensures GoodConfig(ClientConfig(k, q))
  {
  }

  /** Target to client. The server cuts its reads into chunks and seals them with the key
      material it found, the transport cuts that stream anywhere and the events of the
      client come in any order: the client socket gets a prefix of the target's bytes, and
      all of them once the whole stream has come in and been processed. */
  lemma TargetToClient(
      k: Crypto, q: Request, es: seq<Event>, gauge: nat, up: int, sn: Nonce, inflow: seq<bytes>, isTcp: bool)
    requires Sound(k) && Encodable(q.target) && Legal(ClientConfig(k, q), Init(ClientConfig(k, q), gauge, up), es)
    requires var base := ClientBase(k, q.password, q.withoutBrook);
             Run(ClientConfig(k, q), Init(ClientConfig(k, q), gauge, up), es).log.received <=
             sn + SealFrames(CipherFor(k, base, sn), sn, AllChunks(inflow, FrameSize(isTcp)))
    ensures var base := ClientBase(k, q.password, q.withoutBrook);
            var sent := sn + SealFrames(CipherFor(k, base, sn), sn, AllChunks(inflow, FrameSize(isTcp)));
            var s := Run(ClientConfig(k, q), Init(ClientConfig(k, q), gauge, up), es);
            && s.log.written <= Flatten(inflow)
            && s.life.reason != DecryptError
            && (Quiet(s) && s.log.received == sent ==> s.log.confirmed == Flatten(inflow))
  {
    hide Run, Legal, SealFrames, AllChunks, Flatten, Encodable, Sound, CipherFor, Quiet, BuildHeader, Encode;
    var cfg, ps := ClientConfig(k, q), AllChunks(inflow, FrameSize(isTcp));
    ConfigIsGood(k, q);
    AllChunksFit(inflow, FrameSize(isTcp));
    AllChunksJoin(inflow, FrameSize(isTcp));
    DownstreamRoundTrip(cfg, es, gauge, up, sn, ps);
  }

  lemma UplinkShape(cfg: Config, u: Uplink)
    requires WireOk(cfg, u) && u.up != []
    ensures var c := cfg.cipher(cfg.cn);
            u.wire == (cfg.cn + SealFrame(c, cfg.cn, cfg.header)) + SealFrames(c, Bump(cfg.cn, 2), u.up[1..])
    ensures Takes(u.up[1..])
  {
    var c := cfg.cipher(cfg.cn);
    assert SealFrames(c, cfg.cn, u.up) == SealFrame(c, cfg.cn, u.up[0]) + SealFrames(c, Bump(cfg.cn, 2), u.up[1..]);
  }

  /** The payloads opened from a prefix of what was sealed, joined, are a prefix of the source. */
  lemma OpenedIsPrefix(cfg: Config, u: Uplink, rest: bytes, room: nat)
    requires Gcm(cfg.cipher(cfg.cn)) && WireOk(cfg, u) && u.up != [] && Sealed(u) <= Source(cfg, u)
    requires rest <= SealFrames(cfg.cipher(cfg.cn), Bump(cfg.cn, 2), u.up[1..])
    ensures var r := GoOpen(cfg.cipher(cfg.cn), Bump(cfg.cn, 2), rest, room);
            && Flatten(r.payloads) <= Source(cfg, u)
            && (rest == SealFrames(cfg.cipher(cfg.cn), Bump(cfg.cn, 2), u.up[1..]) && |u.up| <= room ==>
                  Flatten(r.payloads) == Sealed(u) && r.end == Eof)
  {
    hide GoOpen, SealFrames, Bump;
    var c, n := cfg.cipher(cfg.cn), Bump(cfg.cn, 2);
    UplinkShape(cfg, u);
    UplinkPrefix(c, n, u.up[1..], rest, room);
    FlattenPrefix(GoOpen(c, n, rest, room).payloads, u.up[1..]);
    if rest == SealFrames(c, n, u.up[1..]) && |u.up| <= room {
      UplinkWhole(c, n, u.up[1..], room);
    }
  }

  /** The first bytes the client has put on the wire. */
  function Greeting(k: Crypto, q: Request): bytes
    requires Encodable(q.target)
  {
    Hello(k, ClientBase(k, q.password, q.withoutBrook), q.cn, BuildHeader(Encode(q.target), true, q.clock))
  }

  /** Client to target. The server, in whichever mode it prefers and with a clock close
      enough, has read a part of what the client has sent, at least its greeting. It accepts
      the very destination asked for, as TCP; and what its relay delivers to that target is
      a prefix of the leftover followed by the client's bytes: all of it and then a clean end,
      if everything was sent and read and the target took it, before and after the client
      has closed its side. */
  lemma ClientToTarget(
      k: Crypto, q: Request, es: seq<Event>, gauge: nat, ups: nat, preferHash: bool, server: int, w: bytes, room: nat)
    requires Sound(k) && Encodable(q.target)
    requires 0 <= q.clock && q.clock + 1 < TWO32 && -119 <= server - q.clock <= 120
    requires q.withoutBrook ==> |q.password| != 32
    requires Legal(ClientConfig(k, q), Init(ClientConfig(k, q), gauge, ups), es)
    requires Greeting(k, q) <= w <= Run(ClientConfig(k, q), Init(ClientConfig(k, q), gauge, ups), es).main.u.wire
    requires NotSimple(k, q.password, w)
    requires var base := ClientBase(k, q.password, q.withoutBrook);
             OthersReject(k, q.password, base, q.cn,
                          CipherFor(k, base, q.cn).seal(q.cn, Be16(|BuildHeader(Encode(q.target), true, q.clock)|)))
    ensures var base := ClientBase(k, q.password, q.withoutBrook);
            var m := Run(ClientConfig(k, q), Init(ClientConfig(k, q), gauge, ups), es).main;
            var a := ServerAccept(k, q.password, preferHash, server, w);
            && a == Accepted(base, true, q.target, Bump(q.cn, 2), w[|Greeting(k, q)|..])
            && var r := GoOpen(CipherFor(k, base, q.cn), a.cn, a.rest, room);
            && Flatten(r.payloads) <= q.leftover + m.u.clientRead
            && (w == m.u.wire && AllSealed(m.pc) && |m.u.up| <= room ==>
                  Flatten(r.payloads) == q.leftover + m.u.clientRead && r.end == Eof)
  {
    hide *;
    GreetingAccepted(k, q, preferHash, server, w);
    Delivered(k, q, es, gauge, ups, w, room);
  }

  lemma GreetingAccepted(k: Crypto, q: Request, preferHash: bool, server: int, w: bytes)
    requires Sound(k) && Encodable(q.target)
    requires 0 <= q.clock && q.clock + 1 < TWO32 && -119 <= server - q.clock <= 120
    requires q.withoutBrook ==> |q.password| != 32
    requires Greeting(k, q) <= w && NotSimple(k, q.password, w)
    requires var base := ClientBase(k, q.password, q.withoutBrook);
             OthersReject(k, q.password, base, q.cn,
                          CipherFor(k, base, q.cn).seal(q.cn, Be16(|BuildHeader(Encode(q.target), true, q.clock)|)))
    ensures ServerAccept(k, q.password, preferHash, server, w) ==
            Accepted(ClientBase(k, q.password, q.withoutBrook), true, q.target, Bump(q.cn, 2), w[|Greeting(k, q)|..])
  {
    hide ServerAccept, Bump, ClientBase, Encodable, Encode, BuildHeader, Be16, Hello, OthersReject, NotSimple,
         Sound, CipherFor;
    var rest := w[|Greeting(k, q)|..];
    assert w == Greeting(k, q) + rest;
    HandshakeAgreement(k, q.password, q.withoutBrook, preferHash, q.target, true, q.cn, q.clock, server, rest);
  }

  lemma Delivered(k: Crypto, q: Request, es: seq<Event>, gauge: nat, ups: nat, w: bytes, room: nat)
    requires Sound(k) && Encodable(q.target)
    requires Legal(ClientConfig(k, q), Init(ClientConfig(k, q), gauge, ups), es)
    requires Greeting(k, q) <= w <= Run(ClientConfig(k, q), Init(ClientConfig(k, q), gauge, ups), es).main.u.wire
    ensures var base := ClientBase(k, q.password, q.withoutBrook);
            var m := Run(ClientConfig(k, q), Init(ClientConfig(k, q), gauge, ups), es).main;
            var r := GoOpen(CipherFor(k, base, q.cn), Bump(q.cn, 2), w[|Greeting(k, q)|..], room);
            && Flatten(r.payloads) <= q.leftover + m.u.clientRead
            && (w == m.u.wire && AllSealed(m.pc) && |m.u.up| <= room ==>
                  Flatten(r.payloads) == q.leftover + m.u.clientRead && r.end == Eof)
  {
    hide GoOpen, SealFrames, Bump, ClientBase, BuildHeader, Encode, Encodable, Run, Legal, Flatten, Pieces, SealFrame;
    var cfg, rest := ClientConfig(k, q), w[|Greeting(k, q)|..];
    var u := Run(cfg, Init(cfg, gauge, ups), es).main.u;
    ConfigIsGood(k, q);
    UpstreamExact(cfg, es, gauge, ups);
    GreetingStarts(k, q, u, w);
    OpenedIsPrefix(cfg, u, rest, room);
  }

  /** A wire that starts with the greeting has the header as its first frame. */
  lemma GreetingStarts(k: Crypto, q: Request, u: Uplink, w: bytes)
    requires Sound(k) && Encodable(q.target) && WireOk(ClientConfig(k, q), u)
    requires Greeting(k, q) <= w <= u.wire
    ensures u.up != []
    ensures var base := ClientBase(k, q.password, q.withoutBrook);
            var tail := SealFrames(CipherFor(k, base, q.cn), Bump(q.cn, 2), u.up[1..]);
            && w[|Greeting(k, q)|..] <= tail
            && (w == u.wire ==> w[|Greeting(k, q)|..] == tail)
  {
    hide BuildHeader, Encode, Encodable, ClientBase, Bump;
    var cfg, base := ClientConfig(k, q), ClientBase(k, q.password, q.withoutBrook);
    var c := CipherFor(k, base, q.cn);
    SealFrameLength(c, q.cn, cfg.header);
    assert |Greeting(k, q)| > 12;
    assert u.up == [] ==> u.wire == cfg.cn + SealFrames(c, cfg.cn, []) || u.wire == [];
    assert u.up == [] ==> |u.wire| <= 12;
    UplinkShape(cfg, u);
    SplitPrefix(Greeting(k, q), SealFrames(c, Bump(q.cn, 2), u.up[1..]), w);
  }

  // From the browser's SOCKS5 request to the server's dialer.

  lemma AcceptedDestination(s: bytes)
    requires Socks5.Negotiate(s).Accepted?
    ensures 5 <= |Socks5.Negotiate(s).dst| <= 259
    ensures ParseBrookDestination(Socks5.Negotiate(s).dst).Some?
  {
    hide ParseBrookDestination, Socks5.Negotiate;
    Socks5.AcceptedIsValid(s);
  }

  /** Whatever SOCKS5 stream the client accepts, cut as it may be, the server dials the
      target that the request named; what followed the request is the tunnel's leftover. */
  lemma SocksRequestReachesDialer(
      k: Crypto, s: bytes, password: bytes, withoutBrook: bool, preferHash: bool, cn: Nonce, clock: int, server: int,
      rest: bytes)
    requires Sound(k) && Socks5.Negotiate(s).Accepted?
    requires 0 <= clock && clock + 1 < TWO32 && -119 <= server - clock <= 120
    requires withoutBrook ==> |password| != 32
    requires var base := ClientBase(k, password, withoutBrook);
             var header := BuildHeader(Socks5.Negotiate(s).dst, true, clock);
             && NotSimple(k, password, Hello(k, base, cn, header) + rest)
             && OthersReject(k, password, base, cn, CipherFor(k, base, cn).seal(cn, Be16(|header|)))
    ensures var base := ClientBase(k, password, withoutBrook);
            var dst := Socks5.Negotiate(s).dst;
            && ParseBrookDestination(dst).Some?
            && ServerAccept(k, password, preferHash, server, Hello(k, base, cn, BuildHeader(dst, true, clock)) + rest)
               == Accepted(base, true, ParseBrookDestination(dst).value, Bump(cn, 2), rest)
  {
    hide ServerAccept, Stamp, Be32, SealFrame, Hello, BuildHeader, ParseBrookDestination, Be16, Bump, Socks5.Negotiate;
    AcceptedDestination(s);
    ClockWindow(clock, server, true);
    HandshakeExact(k, password, withoutBrook, preferHash, Socks5.Negotiate(s).dst, true, cn, clock, server, rest);
  }
}
