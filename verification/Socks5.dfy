/** The SOCKS5 side of the proxy (sections 3 and 4 of RFC 1928): method selection and the
    CONNECT request, read from a stream that may be cut anywhere. */
module Socks5 {
  import opened Bytes
  import opened Destination
  import opened HttpHeader

  const MAX_SOCKS5_BUF: nat := 1024

  datatype Failure =
    | Ended | BadVersion | NoAcceptableMethod | BadRequestVersion | BadCommand | EmptyDomain | BadAddressType

  /** What was replied, and the destination with what follows the request, or why not. */
  datatype Outcome =
    | Refused(replies: seq<bytes>, why: Failure)
    | Accepted(replies: seq<bytes>, dst: bytes, rest: bytes)

  const NO_AUTH: bytes := [5, 0]
  const NO_METHOD: bytes := [5, 255]

  function Reply(code: byte): bytes {
    [5, code, 0, 1, 0, 0, 0, 0, 0, 0]
  }

  // The protocol on a whole stream.

  /** The length of the request, if its address type and length are acceptable. */
  function RequestLength(t: bytes): Option<nat>
    requires |t| >= 5
  {
    if t[3] == ATYP_IPV4 then Some(10)
    else if t[3] == ATYP_DOMAIN then if t[4] == 0 then None else Some(7 + t[4] as nat)
    else if t[3] == ATYP_IPV6 then Some(22)
    else None
  }

  function Request(t: bytes): Outcome {
    if |t| < 4 then Refused([NO_AUTH], Ended)
    else if t[0] != 5 then Refused([NO_AUTH], BadRequestVersion)
    else if t[1] != 1 then Refused([NO_AUTH, Reply(7)], BadCommand)
    else if t[3] != ATYP_IPV4 && t[3] != ATYP_DOMAIN && t[3] != ATYP_IPV6 then
      Refused([NO_AUTH, Reply(8)], BadAddressType)
    else if |t| < 5 then Refused([NO_AUTH], Ended)
    else
      match RequestLength(t)
      case None => Refused([NO_AUTH], EmptyDomain)
      case Some(n) => if |t| < n then Refused([NO_AUTH], Ended) else Accepted([NO_AUTH], t[3..n], t[n..])
  }

  function Negotiate(s: bytes): Outcome {
    if |s| < 2 then Refused([], Ended)
    else if s[0] != 5 then Refused([], BadVersion)
    else
      var n := s[1] as nat;
      if |s| < 2 + n then Refused([], Ended)
      else if 0 !in s[2..2 + n] then Refused([NO_METHOD], NoAcceptableMethod)
      else Request(s[2 + n..])
  }

  // The parser: a buffer that grows by whole chunks until enough is there.

  datatype Enough = Enough | StreamEnded | OverLimit

  class Socks5Parser {
    var buf: bytes
    var replies: seq<bytes>
    var replySent: bool
    const reader: ChunkReader

    ghost function Stream(): bytes
      reads this, reader
    {
      buf + Flatten(reader.chunks)
    }

    constructor (initialChunk: bytes, reader: ChunkReader)
      ensures buf == initialChunk && replies == [] && !replySent && this.reader == reader
    {
      buf, replies, replySent, this.reader := initialChunk, [], false, reader;
    }

    /** Read until there are this many bytes. The limit stops a reader only when more than
        1025 bytes are asked for. */
    method EnsureBytes(minLen: nat) returns (r: Enough)
      modifies this`buf, reader
      ensures Stream() == old(Stream())
      ensures r == Enough <==> |buf| >= minLen
      ensures r == StreamEnded ==> |Stream()| < minLen
      ensures r == OverLimit ==> minLen > 1025
      ensures |old(buf)| <= |buf|
    {
      while |buf| < minLen
        invariant Stream() == old(Stream()) && |old(buf)| <= |buf|
        decreases |reader.chunks|
      {
        if |buf| > MAX_SOCKS5_BUF {
          return OverLimit;
        }
        ghost var before := Stream();
        ghost var chunks := reader.chunks;
        var value := reader.Read();
        if value.None? {
          assert buf + Flatten([]) == buf;
          return StreamEnded;
        }
        ChunkMoves(buf, chunks);
        buf := buf + value.value;
      }
      r := Enough;
    }

    method Say(reply: bytes)
      modifies this`replies
      ensures replies == old(replies) + [reply]
    {
      replies := replies + [reply];
    }

    /** The first reply after the handshake is the only one. */
    method SendSuccess()
      modifies this`replies, this`replySent
      ensures replySent
      ensures replies == old(replies) + if old(replySent) then [] else [Reply(0)]
    {
      if !replySent {
        replySent := true;
        Say(Reply(0));
      }
    }

    method SendFailure(code: byte)
      modifies this`replies, this`replySent
      ensures replySent
      ensures replies == old(replies) + if old(replySent) then [] else [Reply(code)]
    {
      if !replySent {
        replySent := true;
        Say(Reply(code));
      }
    }

    /** Method selection, then the request. What is left in the buffer goes to the tunnel. */
    method HandleHandshake() returns (r: Outcome)
      requires replies == []
      modifies this, reader
      ensures r == Negotiate(old(Stream()))
      ensures r.replies == replies
      ensures r.Accepted? ==> r.rest == Stream()
    {
      hide Request, Negotiate, Flatten;
      ghost var s := Stream();
      var e := EnsureBytes(2);
      if e != Enough {
        TooShort(s, 2);
        return Refused([], Ended);
      }
      if buf[0] != 5 {
        Head(s, buf);
        return Refused([], BadVersion);
      }
      var nMethods := buf[1] as nat;
      e := EnsureBytes(2 + nMethods);
      Head(s, buf);
      if e != Enough {
        TooShort(s, 2 + nMethods);
        return Refused([], Ended);
      }
      var methods := buf[2..2 + nMethods];
      var hasNoAuth := HasNoAuth(methods);
      assert s[2..2 + nMethods] == methods;
      if !hasNoAuth {
        Say(NO_METHOD);
        return Refused([NO_METHOD], NoAcceptableMethod);
      }
      Say(NO_AUTH);
      assert s[2 + nMethods..] == buf[2 + nMethods..] + Flatten(reader.chunks);
      buf := buf[2 + nMethods..];
      r := HandleRequest();
    }

    method HasNoAuth(methods: bytes) returns (found: bool)
      ensures found == (0 in methods)
    {
      var i := 0;
      while i < |methods|
        invariant 0 <= i <= |methods| && 0 !in methods[..i]
      {
        if methods[i] == 0 {
          return true;
        }
        i := i + 1;
      }
      found := false;
    }

    method HandleRequest() returns (r: Outcome)
      requires replies == [NO_AUTH]
      modifies this, reader
      ensures r == Request(old(Stream()))
      ensures r.replies == replies
      ensures r.Accepted? ==> r.rest == Stream()
    {
      ghost var t := Stream();
      var e := EnsureBytes(4);
      if e != Enough {
        return Refused([NO_AUTH], Ended);
      }
      assert t[0] == buf[0] && t[1] == buf[1] && t[3] == buf[3];
      if buf[0] != 5 {
        return Refused([NO_AUTH], BadRequestVersion);
      }
      if buf[1] != 1 {
        Say(Reply(7));
        return Refused([NO_AUTH, Reply(7)], BadCommand);
      }
      var atyp := buf[3];
      var totalReqLen := 10;
      if atyp == ATYP_DOMAIN {
        e := EnsureBytes(5);
        if e != Enough {
          return Refused([NO_AUTH], Ended);
        }
        assert t[4] == buf[4];
        var domainLen := buf[4] as nat;
        if domainLen == 0 {
          return Refused([NO_AUTH], EmptyDomain);
        }
        totalReqLen := 7 + domainLen;
      } else if atyp == ATYP_IPV6 {
        totalReqLen := 22;
      } else if atyp != ATYP_IPV4 {
        Say(Reply(8));
        return Refused([NO_AUTH, Reply(8)], BadAddressType);
      }
      e := EnsureBytes(totalReqLen);
      if e != Enough {
        return Refused([NO_AUTH], Ended);
      }
      r := TakeRequest(totalReqLen);
    }

    method TakeRequest(n: nat) returns (r: Outcome)
      requires 3 <= n <= |buf| && replies == [NO_AUTH]
      modifies this`buf
      ensures n <= |old(Stream())| && r == Accepted([NO_AUTH], old(Stream())[3..n], old(Stream())[n..])
      ensures r.rest == Stream()
    {
      ghost var t := Stream();
      assert t[3..n] == buf[3..n] && t[n..] == buf[n..] + Flatten(reader.chunks);
      r := Accepted([NO_AUTH], buf[3..n], buf[n..] + Unread());
      buf := buf[n..];
    }

    /** What the reader has not delivered yet; only the specification looks at it. */
    function Unread(): bytes
      reads this, reader
    {
      Flatten(reader.chunks)
    }
  }

  lemma ChunkMoves(buf: bytes, chunks: seq<bytes>)
    requires chunks != []
    ensures buf + Flatten(chunks) == (buf + chunks[0]) + Flatten(chunks[1..])
  {
  }

  lemma TooShort(s: bytes, n: nat)
    requires n == 2 || (|s| >= 2 && s[0] == 5 && n == 2 + s[1] as nat)
    ensures |s| < n ==> Negotiate(s) == Refused([], Ended)
  {
  }

  lemma Head(s: bytes, buf: bytes)
    requires buf <= s && |buf| >= 2
    ensures s[0] == buf[0] && s[1] == buf[1]
    ensures s[0] != 5 ==> Negotiate(s) == Refused([], BadVersion)
    ensures s[0] == 5 && |s| >= 2 + s[1] as nat ==>
              var n := s[1] as nat;
              Negotiate(s) ==
                if 0 !in s[2..2 + n] then Refused([NO_METHOD], NoAcceptableMethod) else Request(s[2 + n..])
  {
  }

  // What clients send.

  function Greeting(methods: bytes): bytes
    requires |methods| < 256
  {
    [5, |methods| as byte] + methods
  }

  function Connect(rsv: byte, dst: bytes): bytes {
    [5, 1, rsv] + dst
  }

  /** Every well-formed client stream is accepted: the destination is the one asked for, what
      follows the request is left over, and the Go server decodes that destination. */
  lemma ValidIsAccepted(methods: bytes, rsv: byte, t: Target, rest: bytes)
    requires |methods| < 256 && 0 in methods && Encodable(t)
    ensures Negotiate(Greeting(methods) + (Connect(rsv, Encode(t)) + rest)) == Accepted([NO_AUTH], Encode(t), rest)
    ensures ParseBrookDestination(Encode(t)) == Some(t)
  {
    hide Encode, ParseBrookDestination, Request;
    DestinationRoundTrip(t);
    var s := Greeting(methods) + (Connect(rsv, Encode(t)) + rest);
    assert s[2..2 + |methods|] == methods && s[2 + |methods|..] == Connect(rsv, Encode(t)) + rest;
    EncodedLength(t);
    RequestAccepted(rsv, Encode(t), rest);
  }

  lemma EncodedLength(t: Target)
    requires Encodable(t)
    ensures WellFormed(Encode(t))
  {
  }

  /** A destination whose length fits its address type. */
  predicate WellFormed(dst: bytes) {
    || (|dst| == 7 && dst[0] == ATYP_IPV4)
    || (|dst| == 19 && dst[0] == ATYP_IPV6)
    || (|dst| >= 5 && dst[0] == ATYP_DOMAIN && dst[1] > 0 && |dst| == 4 + dst[1] as nat)
  }

  lemma RequestAccepted(rsv: byte, dst: bytes, rest: bytes)
    requires WellFormed(dst)
    ensures Request(Connect(rsv, dst) + rest) == Accepted([NO_AUTH], dst, rest)
  {
    var t := Connect(rsv, dst) + rest;
    assert t[3] == dst[0] && t[4] == dst[1];
    assert t[3..3 + |dst|] == dst && t[3 + |dst|..] == rest;
  }

  /** And only those are: an accepted stream is a greeting that offers no authentication, a
      CONNECT request, and the rest; its destination names a target for the Go server. */
  lemma AcceptedIsValid(s: bytes)
    requires Negotiate(s).Accepted?
    ensures var r := Negotiate(s);
            && r.replies == [NO_AUTH]
            && WellFormed(r.dst) && ParseBrookDestination(r.dst).Some?
            && |s| >= 2 && |s| >= 5 + s[1] as nat
            && var n := s[1] as nat;
            && 0 in s[2..2 + n]
            && s == Greeting(s[2..2 + n]) + (Connect(s[2 + n + 2], r.dst) + r.rest)
  {
    hide ParseBrookDestination, Request, Connect;
    var n := s[1] as nat;
    var t, r := s[2 + n..], Negotiate(s);
    AcceptedRequest(t);
    assert s == Greeting(s[2..2 + n]) + t;
    WellFormedParses(r.dst);
  }

  lemma AcceptedRequest(t: bytes)
    requires Request(t).Accepted?
    ensures var r := Request(t);
            |t| >= 5 && r.replies == [NO_AUTH] && WellFormed(r.dst) && t == Connect(t[2], r.dst) + r.rest
  {
    var r := Request(t);
    assert r.dst[0] == t[3] && r.dst[1] == t[4];
  }

  lemma WellFormedParses(dst: bytes)
    requires WellFormed(dst)
    ensures ParseBrookDestination(dst).Some?
  {
  }

  /** What is answered, byte by byte, to every stream: nothing before the offered methods are
      in or to another version; refusal if none of them is "no authentication"; else
      consent, followed by "command not supported" or "address type not supported" where
      the request asks for that. */
  lemma RepliesExact(s: bytes)
    ensures Negotiate(s).replies ==
              if |s| < 2 || s[0] != 5 || |s| < 2 + s[1] as nat then []
              else if 0 !in s[2..2 + s[1] as nat] then [[5, 0xFF]]
              else
                var t := s[2 + s[1] as nat..];
                if |t| >= 4 && t[0] == 5 && t[1] != 1 then [[5, 0], [5, 7, 0, 1, 0, 0, 0, 0, 0, 0]]
                else if |t| >= 4 && t[0] == 5 && t[3] != 1 && t[3] != 3 && t[3] != 4 then
                  [[5, 0], [5, 8, 0, 1, 0, 0, 0, 0, 0, 0]]
                else [[5, 0]]
  {
    hide RequestLength;
  }
}
