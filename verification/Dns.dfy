/** The DNS messages of the client's resolver: its query, and its reading of a response
    (sections 4.1.2, 4.1.3 and 4.2.2 of RFC 1035). */
module Dns {
  import opened Bytes

  datatype Answer = Answer(ip: bytes, ttl: int)

  // The query.

  /** Labels with their lengths; the length byte keeps only the low eight bits. */
  function NameBytes(labels: seq<bytes>): bytes {
    if labels == [] then [] else [|labels[0]| % 256] + labels[0] + NameBytes(labels[1..])
  }

  function QueryBody(labels: seq<bytes>, id: nat): bytes {
    Be16(id) + [1, 0, 0, 1, 0, 0, 0, 0, 0, 0] + (NameBytes(labels) + [0]) + [0, 1, 0, 1]
  }

  /** Over TCP a message is preceded by its length. */
  function BuildQuery(labels: seq<bytes>, id: nat): bytes {
    Be16(|QueryBody(labels, id)|) + QueryBody(labels, id)
  }

  lemma NextLabel(done: bytes, labels: seq<bytes>, i: nat)
    requires i < |labels|
    ensures done + NameBytes(labels[i..]) == (done + [|labels[i]| % 256] + labels[i]) + NameBytes(labels[i + 1..])
  {
    assert labels[i..][0] == labels[i] && labels[i..][1..] == labels[i + 1..];
  }

  /** The query builder pushes label after label. */
  method BuildDnsQuery(parts: seq<bytes>, id: nat) returns (query: bytes)
    ensures query == BuildQuery(parts, id)
  {
    hide NameBytes, Be16;
    var qname: bytes := [];
    var i := 0;
    assert parts[0..] == parts && [] + NameBytes(parts) == NameBytes(parts);
    while i < |parts|
      invariant 0 <= i <= |parts| && qname + NameBytes(parts[i..]) == NameBytes(parts)
    {
      NextLabel(qname, parts, i);
      qname := qname + [|parts[i]| % 256] + parts[i];
      i := i + 1;
    }
    NoLabels(qname, parts);
    qname := qname + [0];
    var body := Be16(id) + [1, 0, 0, 1, 0, 0, 0, 0, 0, 0] + qname + [0, 1, 0, 1];
    query := Be16(|body|) + body;
  }

  lemma NoLabels(done: bytes, labels: seq<bytes>)
    ensures done + NameBytes(labels[|labels|..]) == done
  {
    assert labels[|labels|..] == [];
  }

  /** Whatever the name: after its length a query carries the identifier, the flag for
      recursion, one question and nothing else; it ends with the name's zero byte, type A and
      class IN. */
  lemma QueryShape(labels: seq<bytes>, id: nat)
    ensures var q := BuildQuery(labels, id);
            && |q| >= 19 && q[..2] == Be16(|q| - 2) && q[2..4] == Be16(id)
            && q[4..14] == [1, 0, 0, 1, 0, 0, 0, 0, 0, 0]
            && q[14..|q| - 5] == NameBytes(labels) && q[|q| - 5..] == [0, 0, 1, 0, 1]
  {
    hide NameBytes, Be16;
    var name := NameBytes(labels);
    var q := BuildQuery(labels, id);
    var body := QueryBody(labels, id);
    assert |body| == |name| + 17 && |q| == |name| + 19;
    assert q == Be16(|body|) + Be16(id) + [1, 0, 0, 1, 0, 0, 0, 0, 0, 0] + name + [0, 0, 1, 0, 1];
  }

  // The reader.

  /** A length byte with both high bits set begins a pointer. */
  predicate IsPointer(b: byte) {
    b >= 0xC0
  }

  /** Over labels to the terminating zero, or past the end. */
  function SkipLabels(buf: bytes, off: nat): (end: nat)
    ensures end >= off
    decreases if off < |buf| then |buf| - off else 0
  {
    if off >= |buf| || buf[off] == 0 then off else SkipLabels(buf, off + 1 + buf[off] as nat)
  }

  /** The same, but a pointer ends the name. */
  function SkipQuestion(buf: bytes, off: nat): (end: nat)
    ensures end >= off
    decreases if off < |buf| then |buf| - off else 0
  {
    if off >= |buf| || buf[off] == 0 then off
    else if IsPointer(buf[off]) then off + 2
    else SkipQuestion(buf, off + 1 + buf[off] as nat)
  }

  function PastZero(buf: bytes, off: nat): nat {
    if off < |buf| && buf[off] == 0 then off + 1 else off
  }

  function SkipOwner(buf: bytes, off: nat): (end: nat)
    requires off < |buf|
    ensures end > off
  {
    if IsPointer(buf[off]) then off + 2 else PastZero(buf, SkipLabels(buf, off))
  }

  function AsSigned(n: nat): int {
    if n >= 0x8000_0000 then n - 0x1_0000_0000 else n
  }

  /** Four bytes joined by shifts: a signed 32-bit number. */
  function SignedBe32(b: bytes): int
    requires |b| == 4
  {
    AsSigned(FromBe32(b))
  }

  /** At most n answers, from this place on. Anything but a four-byte A record is passed over. */
  function Answers(buf: bytes, off: nat, n: nat): seq<Answer>
    decreases n
  {
    if n == 0 || off >= |buf| then []
    else
      var at := SkipOwner(buf, off);
      if at + 10 > |buf| then []
      else
        var rdlen := FromBe16(buf[at + 8..at + 10]);
        var later := Answers(buf, at + 10 + rdlen, n - 1);
        if FromBe16(buf[at..at + 2]) == 1 && rdlen == 4 && at + 14 <= |buf| then
          [Answer(buf[at + 10..at + 14], SignedBe32(buf[at + 4..at + 8]))] + later
        else later
  }

  /** Where the message starts: after a length prefix, if the first two bytes look like one. */
  function MessageStart(buf: bytes): nat
    requires |buf| >= 2
  {
    if FromBe16(buf[..2]) == |buf| - 2 then 2 else 0
  }

  function Parse(buf: bytes): seq<Answer> {
    if |buf| < 14 then []
    else
      var start := MessageStart(buf);
      var question := PastZero(buf, SkipQuestion(buf, start + 12));
      Answers(buf, question + 4, FromBe16(buf[start + 6..start + 8]))
  }

  /** The parser's loops: offsets only grow, and every byte it uses is in range. */
  method ParseDnsResponse(buf: bytes) returns (ips: seq<Answer>)
    ensures ips == Parse(buf)
  {
    hide SkipLabels, SkipOwner, SkipQuestion, Answers, FromBe32;
    ips := [];
    if |buf| < 14 {
      return;
    }
    var offset: nat := if 256 * (buf[0] as nat) + buf[1] as nat == |buf| - 2 then 2 else 0;
    var ancount := 256 * (buf[offset + 6] as nat) + buf[offset + 7] as nat;
    assert buf[offset + 6..offset + 8] == [buf[offset + 6], buf[offset + 7]];
    offset := offset + 12;
    offset := SkipQuestionName(buf, offset);
    offset := offset + 4;
    ips := ReadAnswers(buf, offset, ancount);
  }

  /** The loop over the answers. */
  method ReadAnswers(buf: bytes, start: nat, ancount: nat) returns (ips: seq<Answer>)
    ensures ips == Answers(buf, start, ancount)
  {
    hide SkipLabels, SkipOwner, Answers, FromBe32, FromBe16, SignedBe32;
    ips := [];
    var offset: nat, i := start, 0;
    while i < ancount && offset < |buf|
      invariant 0 <= i <= ancount
      invariant ips + Answers(buf, offset, ancount - i) == Answers(buf, start, ancount)
    {
      NextAnswer(buf, offset, ancount - i);
      var at := SkipOwnerName(buf, offset);
      assert offset < at;
      offset := at;
      if offset + 10 > |buf| {
        break;
      }
      var kind := FromBe16(buf[offset..offset + 2]);
      var ttl := SignedBe32(buf[offset + 4..offset + 8]);
      var rdlen := FromBe16(buf[offset + 8..offset + 10]);
      offset := offset + 10;
      if kind == 1 && rdlen == 4 && offset + 4 <= |buf| {
        var ip := buf[offset..offset + 4];
        OneMore(ips, Answer(ip, ttl), Answers(buf, offset + rdlen, ancount - i - 1));
        ips := ips + [Answer(ip, ttl)];
      }
      offset := offset + rdlen;
      i := i + 1;
    }
    NoAnswers(buf, offset, ancount - i);
    assert ips + [] == ips;
  }

  lemma OneMore(ips: seq<Answer>, a: Answer, later: seq<Answer>)
    ensures (ips + [a]) + later == ips + ([a] + later)
  {
  }

  lemma NextAnswer(buf: bytes, off: nat, n: nat)
    requires n > 0 && off < |buf|
    ensures var at := SkipOwner(buf, off);
            Answers(buf, off, n) ==
              if at + 10 > |buf| then []
              else
                var rdlen := FromBe16(buf[at + 8..at + 10]);
                var later := Answers(buf, at + 10 + rdlen, n - 1);
                if FromBe16(buf[at..at + 2]) == 1 && rdlen == 4 && at + 14 <= |buf| then
                  [Answer(buf[at + 10..at + 14], SignedBe32(buf[at + 4..at + 8]))] + later
                else later
  {
  }

  lemma NoAnswers(buf: bytes, off: nat, n: nat)
    ensures n == 0 || off >= |buf| ==> Answers(buf, off, n) == []
  {
  }

  method SkipQuestionName(buf: bytes, start: nat) returns (offset: nat)
    ensures offset == PastZero(buf, SkipQuestion(buf, start))
  {
    offset := start;
    while offset < |buf| && buf[offset] != 0
      invariant SkipQuestion(buf, offset) == SkipQuestion(buf, start)
      decreases |buf| - offset
    {
      if buf[offset] >= 0xC0 {
        offset := PastZero(buf, offset + 2);
        return;
      }
      offset := offset + 1 + buf[offset] as nat;
    }
    if offset < |buf| && buf[offset] == 0 {
      offset := offset + 1;
    }
  }

  method SkipOwnerName(buf: bytes, start: nat) returns (offset: nat)
    requires start < |buf|
    ensures offset == SkipOwner(buf, start)
  {
    offset := start;
    if buf[offset] >= 0xC0 {
      return offset + 2;
    }
    while offset < |buf| && buf[offset] != 0
      invariant SkipLabels(buf, offset) == SkipLabels(buf, start)
      decreases |buf| - offset
    {
      offset := offset + 1 + buf[offset] as nat;
    }
    if offset < |buf| && buf[offset] == 0 {
      offset := offset + 1;
    }
  }

  // What a server sends.

  datatype Owner = Pointer(b0: byte, b1: byte) | Labels(labels: seq<bytes>)

  datatype Record = Record(owner: Owner, kind: nat, class_: bytes, ttl: nat, data: bytes)

  /** Labels whose length byte is neither zero nor a pointer's. */
  predicate Plain(labels: seq<bytes>) {
    forall i :: 0 <= i < |labels| ==> 1 <= |labels[i]| < 0xC0
  }

  predicate OwnerOk(o: Owner) {
    match o
    case Pointer(b0, _) => IsPointer(b0)
    case Labels(labels) => Plain(labels)
  }

  predicate RecordOk(r: Record) {
    OwnerOk(r.owner) && r.kind < 65536 && |r.class_| == 2 && r.ttl < 0x1_0000_0000 && |r.data| < 65536
  }

  function OwnerBytes(o: Owner): bytes {
    match o
    case Pointer(b0, b1) => [b0, b1]
    case Labels(labels) => NameBytes(labels) + [0]
  }

  /** Type, class, time to live, length of the data. */
  function Fixed(r: Record): bytes {
    Be16(r.kind) + r.class_ + Be32(r.ttl) + Be16(|r.data|)
  }

  function RecordBytes(r: Record): bytes {
    OwnerBytes(r.owner) + Fixed(r) + r.data
  }

  function RecordsBytes(rs: seq<Record>): bytes
    requires forall i :: 0 <= i < |rs| ==> RecordOk(rs[i])
  {
    if rs == [] then []
    else
      assert RecordOk(rs[0]);
      RecordBytes(rs[0]) + RecordsBytes(rs[1..])
  }

  /** The A records, in order; a TTL is read as a signed number. */
  function ARecords(rs: seq<Record>): seq<Answer> {
    if rs == [] then []
    else
      (if rs[0].kind == 1 && |rs[0].data| == 4 then [Answer(rs[0].data, AsSigned(rs[0].ttl))] else []) +
      ARecords(rs[1..])
  }

  // Reading what was written.

  lemma SkipStep(buf: bytes, off: nat)
    requires off < |buf| && 0 < buf[off] < 0xC0
    ensures SkipLabels(buf, off) == SkipLabels(buf, off + 1 + buf[off] as nat)
    ensures SkipQuestion(buf, off) == SkipQuestion(buf, off + 1 + buf[off] as nat)
  {
  }

  lemma SkipStop(buf: bytes, off: nat)
    requires off < |buf| && buf[off] == 0
    ensures SkipLabels(buf, off) == off && SkipQuestion(buf, off) == off
  {
  }

  lemma FirstLabel(pre: bytes, head: bytes, more: bytes, post: bytes)
    ensures pre + ((head + more) + [0]) + post == (pre + head) + (more + [0]) + post
  {
  }

  /** Both name skippers undo the query builder's names. */
  lemma {:induction false} SkipsName(pre: bytes, labels: seq<bytes>, post: bytes)
    requires Plain(labels)
    ensures var buf := pre + (NameBytes(labels) + [0]) + post;
            var end := |pre| + |NameBytes(labels)|;
            SkipLabels(buf, |pre|) == end && SkipQuestion(buf, |pre|) == end && buf[end] == 0
    decreases |labels|
  {
    hide SkipLabels, SkipQuestion;
    var buf := pre + (NameBytes(labels) + [0]) + post;
    if labels == [] {
      assert buf[|pre|] == 0;
      SkipStop(buf, |pre|);
    } else {
      var l := labels[0];
      var head: bytes := [|l|] + l;
      FirstLabel(pre, head, NameBytes(labels[1..]), post);
      assert buf[|pre|] == |l|;
      SkipStep(buf, |pre|);
      SkipsName(pre + head, labels[1..], post);
    }
  }

  lemma SkipsOwner(pre: bytes, o: Owner, post: bytes)
    requires OwnerOk(o)
    ensures var buf := pre + OwnerBytes(o) + post;
            |pre| < |buf| && SkipOwner(buf, |pre|) == |pre| + |OwnerBytes(o)|
  {
    hide SkipLabels, SkipQuestion, NameBytes, Plain;
    var buf := pre + OwnerBytes(o) + post;
    match o
    case Pointer(b0, b1) => assert buf[|pre|] == b0;
    case Labels(labels) =>
      SkipsName(pre, labels, post);
      NotPointer(labels);
      assert buf[|pre|] == (NameBytes(labels) + [0])[0];
  }

  lemma NotPointer(labels: seq<bytes>)
    requires Plain(labels)
    ensures !IsPointer((NameBytes(labels) + [0])[0])
  {
  }

  lemma SignedOf(ttl: nat)
    requires ttl < 0x1_0000_0000
    ensures SignedBe32(Be32(ttl)) == AsSigned(ttl)
  {
    Be32RoundTrip(ttl);
  }

  /** The fixed part of a record, at its place in the buffer. */
  lemma FixedPart(pre: bytes, r: Record, post: bytes)
    requires RecordOk(r)
    ensures var buf := pre + Fixed(r) + (r.data + post);
            var at := |pre|;
            && at + 10 + |r.data| <= |buf|
            && FromBe16(buf[at..at + 2]) == r.kind
            && SignedBe32(buf[at + 4..at + 8]) == AsSigned(r.ttl)
            && FromBe16(buf[at + 8..at + 10]) == |r.data|
            && buf[at + 10..at + 10 + |r.data|] == r.data
  {
    var buf := pre + Fixed(r) + (r.data + post);
    var at := |pre|;
    assert buf[at..at + 2] == Be16(r.kind) && buf[at + 4..at + 8] == Be32(r.ttl);
    assert buf[at + 8..at + 10] == Be16(|r.data|);
    assert buf[at + 10..at + 10 + |r.data|] == r.data;
    Be16RoundTrip(r.kind, []);
    Be16RoundTrip(|r.data|, []);
    SignedOf(r.ttl);
  }

  lemma RecordInPlace(pre: bytes, owner: bytes, fixed: bytes, data: bytes, after: bytes)
    ensures pre + (owner + fixed + data) + after == pre + owner + (fixed + (data + after))
    ensures pre + (owner + fixed + data) + after == (pre + owner) + fixed + (data + after)
  {
  }

  /** One record is read exactly where it stands, and the reader goes on right after it. */
  lemma ReadsOne(pre: bytes, r: Record, after: bytes, n: nat)
    requires RecordOk(r) && n > 0
    ensures var buf := pre + RecordBytes(r) + after;
            Answers(buf, |pre|, n) ==
              (if r.kind == 1 && |r.data| == 4 then [Answer(r.data, AsSigned(r.ttl))] else [])
              + Answers(buf, |pre| + |RecordBytes(r)|, n - 1)
  {
    hide SkipOwner, OwnerBytes, SignedBe32, AsSigned, FromBe16, Be16, Be32, Answers;
    var buf := pre + RecordBytes(r) + after;
    var owner, fixed := OwnerBytes(r.owner), Fixed(r);
    RecordInPlace(pre, owner, fixed, r.data, after);
    SkipsOwner(pre, r.owner, fixed + (r.data + after));
    FixedPart(pre + owner, r, after);
    NextAnswer(buf, |pre|, n);
  }

  /** Records are read one after the other. */
  lemma {:induction false} ReadsRecords(pre: bytes, rs: seq<Record>, post: bytes)
    requires forall i :: 0 <= i < |rs| ==> RecordOk(rs[i])
    ensures Answers(pre + RecordsBytes(rs) + post, |pre|, |rs|) == ARecords(rs)
    decreases |rs|
  {
    hide AsSigned, Answers, RecordBytes;
    var buf := pre + RecordsBytes(rs) + post;
    if rs == [] {
      NoAnswers(buf, |pre|, 0);
    } else {
      assert RecordOk(rs[0]);
      var first, rest := RecordBytes(rs[0]), RecordsBytes(rs[1..]);
      assert buf == pre + first + (rest + post) == (pre + first) + rest + post;
      ReadsOne(pre, rs[0], rest + post, |rs|);
      ReadsRecords(pre + first, rs[1..], post);
    }
  }

  /** A response: header with the number of answers, one uncompressed question, the answers,
      and whatever else follows. */
  function Message(header: bytes, question: seq<bytes>, kindAndClass: bytes, rs: seq<Record>, trailer: bytes): bytes
    requires |header| == 12 && |kindAndClass| == 4 && forall i :: 0 <= i < |rs| ==> RecordOk(rs[i])
  {
    (header + (NameBytes(question) + [0]) + kindAndClass) + RecordsBytes(rs) + trailer
  }

  /** After any prefix of the right length, the reader finds exactly the A records. */
  lemma ReadsMessage(
      prefix: bytes, header: bytes, question: seq<bytes>, kindAndClass: bytes, rs: seq<Record>, trailer: bytes)
    requires |header| == 12 && |kindAndClass| == 4 && Plain(question)
    requires forall i :: 0 <= i < |rs| ==> RecordOk(rs[i])
    requires FromBe16(header[6..8]) == |rs|
    requires var buf := prefix + Message(header, question, kindAndClass, rs, trailer);
             |buf| >= 14 && MessageStart(buf) == |prefix|
    ensures Parse(prefix + Message(header, question, kindAndClass, rs, trailer)) == ARecords(rs)
  {
    hide NameBytes, RecordsBytes, ARecords, Answers, SkipQuestion, FromBe16;
    var name := NameBytes(question) + [0];
    var buf := prefix + Message(header, question, kindAndClass, rs, trailer);
    var records := RecordsBytes(rs);
    MessageParts(prefix, header, name, kindAndClass, records, trailer);
    SkipsName(prefix + header, question, kindAndClass + records + trailer);
    assert buf[|prefix| + 6..|prefix| + 8] == header[6..8];
    ReadsRecords(prefix + (header + name + kindAndClass), rs, trailer);
  }

  lemma MessageParts(prefix: bytes, header: bytes, name: bytes, kc: bytes, records: bytes, trailer: bytes)
    requires |header| == 12
    ensures var buf := prefix + ((header + name + kc) + records + trailer);
            && buf == (prefix + header) + name + (kc + records + trailer)
            && buf == (prefix + (header + name + kc)) + records + trailer
            && |buf| >= |prefix| + 12
            && buf[|prefix| + 6..|prefix| + 8] == header[6..8]
  {
  }

  /** For every length-prefixed response, the parser returns its A records, in order. */
  lemma ResponseRoundTrip(header: bytes, question: seq<bytes>, kindAndClass: bytes, rs: seq<Record>, trailer: bytes)
    requires |header| == 12 && |kindAndClass| == 4 && Plain(question)
    requires forall i :: 0 <= i < |rs| ==> RecordOk(rs[i])
    requires FromBe16(header[6..8]) == |rs|
    requires |Message(header, question, kindAndClass, rs, trailer)| < 65536
    ensures var m := Message(header, question, kindAndClass, rs, trailer);
            Parse(Be16(|m|) + m) == ARecords(rs)
  {
    hide NameBytes, RecordsBytes, ARecords, Answers, SkipQuestion, Parse;
    var m := Message(header, question, kindAndClass, rs, trailer);
    MessageParts([], header, NameBytes(question) + [0], kindAndClass, RecordsBytes(rs), trailer);
    assert (Be16(|m|) + m)[..2] == Be16(|m|);
    Be16RoundTrip(|m|, []);
    ReadsMessage(Be16(|m|), header, question, kindAndClass, rs, trailer);
  }

  /** Without the length prefix the result is the same unless the message's identifier
      happens to look like one. */
  lemma UnprefixedRoundTrip(header: bytes, question: seq<bytes>, kindAndClass: bytes, rs: seq<Record>, trailer: bytes)
    requires |header| == 12 && |kindAndClass| == 4 && Plain(question)
    requires forall i :: 0 <= i < |rs| ==> RecordOk(rs[i])
    requires FromBe16(header[6..8]) == |rs|
    requires FromBe16(header[..2]) != |Message(header, question, kindAndClass, rs, trailer)| - 2
    ensures Parse(Message(header, question, kindAndClass, rs, trailer)) == ARecords(rs)
  {
    hide NameBytes, RecordsBytes, ARecords, Answers, SkipQuestion, Parse;
    var m := Message(header, question, kindAndClass, rs, trailer);
    assert m[..2] == header[..2];
    assert [] + m == m;
    ReadsMessage([], header, question, kindAndClass, rs, trailer);
  }

  const LOOKALIKE: bytes := [0, 31, 0x80, 0, 0, 1, 0, 1, 0, 0, 0, 0]
  const LOOKALIKE_RECORD: Record := Record(Pointer(0xC0, 12), 1, [0, 1], 60, [192, 0, 2, 1])

  /** And it matters: in a response of 33 bytes with the identifier 31 the parser takes the
      identifier for the prefix, reads the counts two bytes too late, and loses the answer. */
  lemma IdentifierTakenForPrefix()
    ensures RecordOk(LOOKALIKE_RECORD) && FromBe16(LOOKALIKE[6..8]) == 1
    ensures var m := Message(LOOKALIKE, [], [0, 1, 0, 1], [LOOKALIKE_RECORD], []);
            && |m| == 33 && FromBe16(LOOKALIKE[..2]) == |m| - 2
            && Parse(m) == [] && ARecords([LOOKALIKE_RECORD]) == [Answer([192, 0, 2, 1], 60)]
  {
    hide SkipQuestion;
    var rs := [LOOKALIKE_RECORD];
    assert rs[1..] == [] && RecordsBytes([]) == [] && NameBytes([]) == [] && ARecords([]) == [];
    assert RecordsBytes(rs) == RecordBytes(LOOKALIKE_RECORD) + [];
    var m := Message(LOOKALIKE, [], [0, 1, 0, 1], rs, []);
    assert m[..12] == LOOKALIKE;
    assert m[..2] == [0, 31] && m[8..10] == [0, 0] by {
      assert m[..2] == m[..12][..2] && m[8..10] == m[..12][8..10];
    }
    NoAnswers(m, PastZero(m, SkipQuestion(m, 14)) + 4, 0);
  }

  /** A time to live comes out as sent exactly when it is below 2^31. */
  lemma TtlExact(ttl: nat)
    requires ttl < 0x1_0000_0000
    ensures SignedBe32(Be32(ttl)) == ttl <==> ttl < 0x8000_0000
  {
    SignedOf(ttl);
  }

  /** The question skipper lands right behind the name the query builder wrote. */
  lemma SkipsQueryName(labels: seq<bytes>, id: nat)
    requires Plain(labels) && |QueryBody(labels, id)| < 65536
    ensures var q := BuildQuery(labels, id);
            && MessageStart(q) == 2
            && PastZero(q, SkipQuestion(q, 14)) + 4 == |q|
  {
    hide NameBytes, SkipQuestion, SkipLabels;
    var body, q := QueryBody(labels, id), BuildQuery(labels, id);
    var head := Be16(id) + [1, 0, 0, 1, 0, 0, 0, 0, 0, 0];
    assert q[..2] == Be16(|body|);
    Be16RoundTrip(|body|, []);
    assert q == (Be16(|body|) + head) + (NameBytes(labels) + [0]) + [0, 1, 0, 1];
    SkipsName(Be16(|body|) + head, labels, [0, 1, 0, 1]);
  }
}
