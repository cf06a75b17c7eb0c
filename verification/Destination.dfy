/** How the Go server reads a destination: a SOCKS5 address (section 4 of RFC 1928), with a
    domain either length-prefixed or bare. */
module Destination {
  import opened Bytes

  const ATYP_IPV4: byte := 1
  const ATYP_DOMAIN: byte := 3
  const ATYP_IPV6: byte := 4

  /** A target as the dialer gets it; the text form of the numeric ones is the library's. */
  datatype Target =
    | V4(ip: bytes, port: nat)
    | Domain(name: bytes, port: nat)
    | V6(ip: bytes, port: nat)

  function ParseDomain(addr: bytes, port: nat): Option<Target> {
    if addr == [] then None
    else if |addr| == addr[0] as int + 1 then
      if addr[0] == 0 then None else Some(Domain(addr[1..], port))
    else if |addr| > 255 then None
    else Some(Domain(addr, port))
  }

  function ParseBrookDestination(dst: bytes): Option<Target> {
    if |dst| < 3 then None
    else
      var port := FromBe16(dst[|dst| - 2..]);
      var addr := dst[1..|dst| - 2];
      if dst[0] == ATYP_IPV4 then if |addr| == 4 then Some(V4(addr, port)) else None
      else if dst[0] == ATYP_DOMAIN then ParseDomain(addr, port)
      else if dst[0] == ATYP_IPV6 then if |addr| == 16 then Some(V6(addr, port)) else None
      else None
  }

  /** Targets that an encoded destination can name. */
  predicate Encodable(t: Target) {
    && t.port < 65536
    && match t
       case V4(ip, _) => |ip| == 4
       case Domain(name, _) => 1 <= |name| <= 255
       case V6(ip, _) => |ip| == 16
  }

  /** The client's encoding; a domain gets a length byte in front. */
  function Encode(t: Target): bytes
    requires Encodable(t)
  {
    match t
    case V4(ip, port) => [ATYP_IPV4] + ip + Be16(port)
    case Domain(name, port) => [ATYP_DOMAIN, |name| as byte] + name + Be16(port)
    case V6(ip, port) => [ATYP_IPV6] + ip + Be16(port)
  }

  lemma Slices(head: bytes, addr: bytes, port: nat)
    requires |head| == 1 && port < 65536
    ensures var dst := head + addr + Be16(port);
            && |dst| == |addr| + 3 && dst[0] == head[0]
            && dst[1..|dst| - 2] == addr && FromBe16(dst[|dst| - 2..]) == port
  {
    var dst := head + addr + Be16(port);
    assert dst[|dst| - 2..] == Be16(port);
    Be16RoundTrip(port, []);
  }

  /** The server reads back what the client encoded. */
  lemma DestinationRoundTrip(t: Target)
    requires Encodable(t)
    ensures ParseBrookDestination(Encode(t)) == Some(t)
    ensures 3 <= |Encode(t)| <= 259
  {
    match t
    case V4(ip, port) => Slices([ATYP_IPV4], ip, port);
    case Domain(name, port) =>
      var addr := [|name| as byte] + name;
      assert Encode(t) == [ATYP_DOMAIN] + addr + Be16(port);
      Slices([ATYP_DOMAIN], addr, port);
      assert addr[1..] == name;
    case V6(ip, port) => Slices([ATYP_IPV6], ip, port);
  }

  /** A domain sent without its length byte is read as itself exactly when its first byte
      is not one less than its length. */
  lemma BareDomain(name: bytes, port: nat)
    requires 1 <= |name| <= 255 && port < 65536
    ensures ParseBrookDestination([ATYP_DOMAIN] + name + Be16(port)) == Some(Domain(name, port))
            <==> name[0] as int != |name| - 1
  {
    Slices([ATYP_DOMAIN], name, port);
    assert name[0] as int == |name| - 1 && name[0] > 0 ==> |name[1..]| != |name|;
  }

  /** And it reads nothing else: a destination is taken exactly if it is an encoded target, or
      a bare domain of at most 255 bytes that does not look like a length-prefixed one. */
  lemma ParsedExactly(dst: bytes, t: Target)
    ensures ParseBrookDestination(dst) == Some(t) <==>
            Encodable(t) &&
            (dst == Encode(t) ||
             (t.Domain? && t.name[0] as int != |t.name| - 1 && dst == [ATYP_DOMAIN] + t.name + Be16(t.port)))
  {
    hide Be16, FromBe16;
    if ParseBrookDestination(dst) == Some(t) {
      var addr := dst[1..|dst| - 2];
      Be16RoundTrip(0, dst[|dst| - 2..]);
      assert dst == [dst[0]] + addr + dst[|dst| - 2..];
      if dst[0] == ATYP_DOMAIN && t.name != addr {
        assert addr == [addr[0]] + addr[1..];
      }
    }
    if Encodable(t) {
      DestinationRoundTrip(t);
      if t.Domain? {
        BareDomain(t.name, t.port);
      }
    }
  }
}
