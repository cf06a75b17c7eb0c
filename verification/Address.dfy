/** The client's address codec: text forms of IPv6 addresses, and the encoding of a host and
    port that the Go server decodes. */
module Address {
  import opened Bytes
  import opened Destination

  // Text.

  function IndexOf(s: string, c: char): (i: nat)
    ensures i <= |s|
    ensures i < |s| ==> s[i] == c
    ensures c !in s[..i]
  {
    if s == "" || s[0] == c then 0 else IndexOf(s[1..], c) + 1
  }

  function SplitAt(s: string, c: char): (parts: seq<string>)
    ensures |parts| >= 1
    decreases |s|
  {
    var i := IndexOf(s, c);
    if i == |s| then [s] else [s[..i]] + SplitAt(s[i + 1..], c)
  }

  /** The first double colon. */
  function DoubleColon(s: string): (i: nat)
    ensures i <= |s|
    ensures i < |s| ==> i + 1 < |s| && s[i] == ':' && s[i + 1] == ':'
  {
    if |s| < 2 then |s| else if s[0] == ':' && s[1] == ':' then 0 else DoubleColon(s[1..]) + 1
  }

  function SplitDouble(s: string): (parts: seq<string>)
    ensures |parts| >= 1
    decreases |s|
  {
    var i := DoubleColon(s);
    if i == |s| then [s] else [s[..i]] + SplitDouble(s[i + 2..])
  }

  function Join(words: seq<string>): string {
    if words == [] then "" else if |words| == 1 then words[0] else words[0] + ":" + Join(words[1..])
  }

  predicate IsSpace(c: char) {
    c == ' ' || c == '\t' || c == '\n' || c == '\r' || c == 11 as char || c == 12 as char
  }

  function TrimStart(s: string): string {
    if s != "" && IsSpace(s[0]) then TrimStart(s[1..]) else s
  }

  function TrimEnd(s: string): string {
    if s != "" && IsSpace(s[|s| - 1]) then TrimEnd(s[..|s| - 1]) else s
  }

  // Hexadecimal.

  function HexValue(c: char): Option<nat> {
    if '0' <= c <= '9' then Some((c - '0') as nat)
    else if 'a' <= c <= 'f' then Some((c - 'a') as nat + 10)
    else if 'A' <= c <= 'F' then Some((c - 'A') as nat + 10)
    else None
  }

  predicate IsHex(c: char) {
    HexValue(c).Some?
  }

  predicate AllHex(s: string) {
    forall i :: 0 <= i < |s| ==> IsHex(s[i])
  }

  /** The longest run of hexadecimal digits at the start. */
  function HexPrefix(s: string): string {
    if s == "" || !IsHex(s[0]) then "" else [s[0]] + HexPrefix(s[1..])
  }

  function HexNumber(s: string): nat
    requires AllHex(s)
  {
    if s == "" then 0 else HexNumber(s[..|s| - 1]) * 16 + HexValue(s[|s| - 1]).value
  }

  lemma {:induction false} HexPrefixIsHex(s: string)
    ensures AllHex(HexPrefix(s))
    ensures AllHex(s) ==> HexPrefix(s) == s
  {
    if s != "" && IsHex(s[0]) {
      HexPrefixIsHex(s[1..]);
      assert s == [s[0]] + s[1..];
      assert AllHex(s) ==> AllHex(s[1..]);
    }
  }

  /** The built-in number parser with radix 16: it takes a sign and a prefix, reads as many
      digits as there are, and ignores the rest. */
  function ParseInt16(s: string): Option<int> {
    var t := TrimStart(s);
    var negative := t != "" && t[0] == '-';
    var u := if t != "" && (t[0] == '-' || t[0] == '+') then t[1..] else t;
    var v := if |u| >= 2 && u[0] == '0' && (u[1] == 'x' || u[1] == 'X') then u[2..] else u;
    var digits := HexPrefix(v);
    HexPrefixIsHex(v);
    if digits == "" then None
    else
      var value: int := HexNumber(digits);
      Some(if negative then -value else value)
  }

  function HexDigit(n: nat): char
    requires n < 16
  {
    if n < 10 then '0' + n as char else 'a' + (n - 10) as char
  }

  /** Lower case, without leading zeros. */
  function ToHex(n: nat): string {
    if n < 16 then [HexDigit(n)] else ToHex(n / 16) + [HexDigit(n % 16)]
  }

  lemma HexDigitValue(n: nat)
    requires n < 16
    ensures HexValue(HexDigit(n)) == Some(n)
  {
  }

  lemma {:induction false} ToHexRoundTrip(n: nat)
    ensures ToHex(n) != "" && AllHex(ToHex(n)) && HexNumber(ToHex(n)) == n
  {
    if n < 16 {
      HexDigitValue(n);
      assert HexNumber([]) == 0;
    } else {
      ToHexRoundTrip(n / 16);
      HexDigitValue(n % 16);
      assert ToHex(n)[..|ToHex(n)| - 1] == ToHex(n / 16);
    }
  }

  lemma PlainHexParses(s: string)
    requires s != "" && AllHex(s)
    ensures ParseInt16(s) == Some(HexNumber(s))
  {
    assert IsHex(s[0]) && !IsSpace(s[0]) && s[0] != '-' && s[0] != '+';
    assert |s| >= 2 ==> IsHex(s[1]) && s[1] != 'x' && s[1] != 'X';
    HexPrefixIsHex(s);
  }

  // IPv6.

  /** The four numbers that a last word with a dot stands for, if it stands for any. Reading
      decimals is a parameter. */
  type Dotted = string -> Option<(byte, byte, byte, byte)>

  /** The dotted word becomes two words, or the address is refused. */
  function ReplaceLast(dotted: Dotted, words: seq<string>): Option<seq<string>>
    requires words != []
  {
    match dotted(words[|words| - 1])
    case None => None
    case Some((a, b, c, d)) => Some(words[..|words| - 1] + [ToHex(256 * a + b), ToHex(256 * c + d)])
  }

  predicate EndsDotted(words: seq<string>) {
    words != [] && '.' in words[|words| - 1]
  }

  /** The two sides of the double colon, with a dotted last word replaced. */
  function Sides(dotted: Dotted, head: seq<string>, tail: seq<string>): Option<(seq<string>, seq<string>)> {
    if EndsDotted(tail) then
      match ReplaceLast(dotted, tail)
      case None => None
      case Some(t) => Some((head, t))
    else if EndsDotted(head) then
      match ReplaceLast(dotted, head)
      case None => None
      case Some(h) => Some((h, tail))
    else Some((head, tail))
  }

  function Zeros(n: nat): seq<string> {
    seq(n, i => "0")
  }

  function WordBytes(words: seq<string>): Option<bytes> {
    if words == [] then Some([])
    else
      match ParseInt16(if words[0] == "" then "0" else words[0])
      case None => None
      case Some(w) =>
        if w < 0 || w > 0xFFFF then None
        else
          match WordBytes(words[1..])
          case None => None
          case Some(rest) => Some(Be16(w) + rest)
  }

  function Words(part: string): seq<string> {
    if part == "" then [] else SplitAt(part, ':')
  }

  function Unbracketed(s: string): string {
    var t := TrimEnd(TrimStart(s));
    if |t| >= 2 && t[0] == '[' && t[|t| - 1] == ']' then t[1..|t| - 1] else t
  }

  function Fill(parts: nat, head: seq<string>, tail: seq<string>): Option<seq<string>> {
    if parts == 2 then
      if |head| + |tail| > 8 then None else Some(head + Zeros(8 - (|head| + |tail|)) + tail)
    else if |head| == 8 then Some(head) else None
  }

  function ParseIpv6(dotted: Dotted, s: string): Option<bytes> {
    var t := Unbracketed(s);
    if ':' !in t then None
    else
      var parts := SplitDouble(t);
      if |parts| > 2 then None
      else
        match Sides(dotted, Words(parts[0]), if |parts| == 2 then Words(parts[1]) else [])
        case None => None
        case Some((head, tail)) =>
          match Fill(|parts|, head, tail)
          case None => None
          case Some(words) => WordBytes(words)
  }

  function WordsOf(b: bytes): seq<string>
    requires |b| % 2 == 0
  {
    if b == [] then [] else [ToHex(FromBe16(b[..2]))] + WordsOf(b[2..])
  }

  /** The text of a sixteen-byte address: eight words, nothing abbreviated. */
  function FormatIpv6(b: bytes): string
    requires |b| == 16
  {
    Join(WordsOf(b))
  }

  lemma NextWord(b: bytes, i: nat)
    requires |b| % 2 == 0 && i % 2 == 0 && i + 2 <= |b|
    ensures WordsOf(b[i..]) == [ToHex(256 * (b[i] as nat) + b[i + 1] as nat)] + WordsOf(b[i + 2..])
  {
    assert b[i..][..2] == [b[i], b[i + 1]] && b[i..][2..] == b[i + 2..];
  }

  /** The formatting loop, two bytes at a time. */
  method BuildIpv6Text(buf: bytes) returns (text: string)
    requires |buf| == 16
    ensures text == FormatIpv6(buf)
  {
    hide ToHex;
    var words: seq<string> := [];
    var i := 0;
    assert buf[0..] == buf;
    while i < 16
      invariant i <= 16 && i % 2 == 0
      invariant words + WordsOf(buf[i..]) == WordsOf(buf)
      decreases 16 - i
    {
      NextWord(buf, i);
      words := words + [ToHex(256 * (buf[i] as nat) + buf[i + 1] as nat)];
      i := i + 2;
    }
    assert words + [] == words;
    text := Join(words);
  }

  /** Bytes already written, then what the rest of the words give. */
  function After(done: bytes, rest: Option<bytes>): Option<bytes> {
    match rest
    case None => None
    case Some(more) => Some(done + more)
  }

  lemma AfterWord(done: bytes, words: seq<string>, i: nat)
    requires i < |words|
    ensures var w := ParseInt16(if words[i] == "" then "0" else words[i]);
            After(done, WordBytes(words[i..])) ==
              if w.None? || w.value < 0 || w.value > 0xFFFF then None
              else After(done + Be16(w.value), WordBytes(words[i + 1..]))
  {
    hide ParseInt16;
    assert words[i..][0] == words[i] && words[i..][1..] == words[i + 1..];
    var w := ParseInt16(if words[i] == "" then "0" else words[i]);
    if w.Some? && 0 <= w.value <= 0xFFFF && WordBytes(words[i + 1..]).Some? {
      var more := WordBytes(words[i + 1..]).value;
      assert done + (Be16(w.value) + more) == (done + Be16(w.value)) + more;
    }
  }

  /** The parsing loop over eight words. */
  method FillWords(words: seq<string>) returns (r: Option<bytes>)
    requires |words| == 8
    ensures r == WordBytes(words)
  {
    hide ParseInt16, WordBytes;
    var out := new byte[16];
    var i := 0;
    AfterNothing(words);
    while i < 8
      invariant 0 <= i <= 8
      invariant WordBytes(words) == After(out[..2 * i], WordBytes(words[i..]))
    {
      AfterWord(out[..2 * i], words, i);
      var w := ParseInt16(if words[i] == "" then "0" else words[i]);
      if w.None? || w.value < 0 || w.value > 0xFFFF {
        return None;
      }
      ghost var before := out[..2 * i];
      out[2 * i], out[2 * i + 1] := w.value / 256, w.value % 256;
      assert out[..2 * (i + 1)] == before + Be16(w.value);
      i := i + 1;
    }
    AfterAll(out[..16], words);
    assert out[..] == out[..16];
    r := Some(out[..]);
  }

  lemma AfterNothing(words: seq<string>)
    ensures After([], WordBytes(words[0..])) == WordBytes(words)
  {
    assert words[0..] == words;
    assert WordBytes(words).Some? ==> [] + WordBytes(words).value == WordBytes(words).value;
  }

  lemma AfterAll(done: bytes, words: seq<string>)
    ensures After(done, WordBytes(words[|words|..])) == Some(done)
  {
    assert words[|words|..] == [] && done + [] == done;
  }

  /** Words of hexadecimal digits only. */
  predicate Plain(words: seq<string>) {
    forall i :: 0 <= i < |words| ==> words[i] != "" && AllHex(words[i])
  }

  /** Words that stay words when they are joined and split again: not empty, without a colon,
      and neither trimmed nor taken for brackets at the ends of the text. */
  predicate Bare(words: seq<string>) {
    forall i :: 0 <= i < |words| ==> BareWord(words[i])
  }

  predicate BareWord(w: string) {
    w != "" && ':' !in w && w[0] != '[' && !IsSpace(w[0]) && !IsSpace(w[|w| - 1])
  }

  lemma PlainIsBare(words: seq<string>)
    requires Plain(words)
    ensures Bare(words)
  {
    forall i | 0 <= i < |words|
      ensures BareWord(words[i])
    {
      var w := words[i];
      HexIsNotColon(w);
      assert IsHex(w[0]) && IsHex(w[|w| - 1]);
    }
  }

  lemma {:induction false} WordsOfArePlain(b: bytes)
    requires |b| % 2 == 0
    ensures |WordsOf(b)| == |b| / 2 && Plain(WordsOf(b)) && WordBytes(WordsOf(b)) == Some(b)
    decreases |b|
  {
    if b != [] {
      var w := FromBe16(b[..2]);
      WordsOfArePlain(b[2..]);
      ToHexRoundTrip(w);
      PlainHexParses(ToHex(w));
      Be16RoundTrip(0, b[..2]);
      assert b == b[..2] + b[2..];
      assert WordsOf(b)[1..] == WordsOf(b[2..]);
    }
  }

  lemma HexIsNotColon(s: string)
    requires AllHex(s)
    ensures ':' !in s && '.' !in s
  {
    forall i | 0 <= i < |s|
      ensures s[i] != ':' && s[i] != '.'
    {
      assert IsHex(s[i]);
    }
  }

  lemma {:induction false} IndexOfFirst(a: string, rest: string, c: char)
    requires c !in a
    ensures IndexOf(a + [c] + rest, c) == |a|
  {
    var s := a + [c] + rest;
    if a != "" {
      assert a[0] in a;
      assert s[0] == a[0] && s[1..] == a[1..] + [c] + rest;
      IndexOfFirst(a[1..], rest, c);
    }
  }

  lemma {:induction false} NoIndex(a: string, c: char)
    requires c !in a
    ensures IndexOf(a, c) == |a|
  {
    if a != "" {
      assert a[0] in a;
      NoIndex(a[1..], c);
    }
  }

  /** Splitting undoes joining. */
  lemma {:induction false} SplitJoin(words: seq<string>)
    requires words != [] && Bare(words)
    ensures SplitAt(Join(words), ':') == words
    decreases |words|
  {
    assert BareWord(words[0]);
    if |words| == 1 {
      NoIndex(words[0], ':');
    } else {
      var rest := Join(words[1..]);
      IndexOfFirst(words[0], rest, ':');
      assert Bare(words[1..]);
      SplitJoin(words[1..]);
      var s := words[0] + ":" + rest;
      assert s[..|words[0]|] == words[0] && s[|words[0]| + 1..] == rest;
    }
  }

  /** Joined words neither start nor end with anything that is taken off, and no two colons
      meet. */
  predicate Tidy(s: string) {
    && s != "" && s[0] != '[' && s[0] != ':' && s[|s| - 1] != ':'
    && !IsSpace(s[0]) && !IsSpace(s[|s| - 1])
    && Apart(s)
  }

  predicate Apart(s: string) {
    forall i :: 0 <= i < |s| - 1 ==> s[i] != ':' || s[i + 1] != ':'
  }

  lemma {:induction false} JoinIsTidy(words: seq<string>)
    requires words != [] && Bare(words)
    ensures Tidy(Join(words)) && (|words| > 1 ==> ':' in Join(words))
    decreases |words|
  {
    assert BareWord(words[0]);
    if |words| > 1 {
      assert Bare(words[1..]);
      JoinIsTidy(words[1..]);
      TidyConcat(words[0], Join(words[1..]));
    }
  }

  lemma TidyConcat(a: string, b: string)
    requires BareWord(a) && Tidy(b)
    ensures Tidy(a + ":" + b) && ':' in a + ":" + b
  {
    var s := a + ":" + b;
    assert s[|a|] == ':' && s[0] == a[0] && s[|s| - 1] == b[|b| - 1];
    forall i | 0 <= i < |s| - 1
      ensures s[i] != ':' || s[i + 1] != ':'
    {
      if i < |a| {
        assert s[i] == a[i] && a[i] in a;
      } else if i > |a| {
        assert s[i] == b[i - |a| - 1] && s[i + 1] == b[i - |a|];
      } else {
        assert s[i + 1] == b[0];
      }
    }
  }

  lemma {:induction false} NoDouble(s: string)
    requires Apart(s)
    ensures DoubleColon(s) == |s| && SplitDouble(s) == [s]
  {
    if |s| >= 2 {
      forall i | 0 <= i < |s[1..]| - 1
        ensures s[1..][i] != ':' || s[1..][i + 1] != ':'
      {
        assert s[1..][i] == s[i + 1] && s[1..][i + 1] == s[i + 2];
      }
      NoDouble(s[1..]);
    }
  }

  /** The first double colon is the one written between two tidy sides. */
  lemma {:induction false} FirstDouble(a: string, b: string)
    requires a == "" || Tidy(a)
    ensures DoubleColon(a + "::" + b) == |a|
    decreases |a|
  {
    var s := a + "::" + b;
    if a != "" {
      assert s[1..] == a[1..] + "::" + b;
      FirstDoubleTail(a[1..], b);
      assert s[0] == a[0];
    }
  }

  lemma {:induction false} FirstDoubleTail(a: string, b: string)
    requires Apart(a)
    requires a != "" ==> a[|a| - 1] != ':'
    ensures DoubleColon(a + "::" + b) == |a|
    decreases |a|
  {
    var s := a + "::" + b;
    if a != "" {
      assert s[1..] == a[1..] + "::" + b;
      assert s[0] == a[0] && s[1] == (if |a| > 1 then a[1] else ':');
      forall i | 0 <= i < |a[1..]| - 1
        ensures a[1..][i] != ':' || a[1..][i + 1] != ':'
      {
        assert a[1..][i] == a[i + 1] && a[1..][i + 1] == a[i + 2];
      }
      FirstDoubleTail(a[1..], b);
    }
  }

  lemma TidyIsBare(s: string)
    requires s != "" && !IsSpace(s[0]) && !IsSpace(s[|s| - 1]) && s[0] != '['
    ensures Unbracketed(s) == s
  {
  }

  lemma NothingDotted(words: seq<string>)
    requires Plain(words)
    ensures !EndsDotted(words)
  {
    if words != [] {
      HexIsNotColon(words[|words| - 1]);
    }
  }

  /** Eight words are read as they stand, unless the last one is dotted. */
  lemma EightWords(dotted: Dotted, words: seq<string>)
    requires |words| == 8 && Bare(words) && !EndsDotted(words)
    ensures ParseIpv6(dotted, Join(words)) == WordBytes(words)
  {
    hide WordBytes, Join;
    var s := Join(words);
    JoinIsTidy(words);
    TidyIsBare(s);
    NoDouble(s);
    SplitJoin(words);
  }

  /** Parsing undoes formatting, for every address. */
  lemma Ipv6RoundTrip(dotted: Dotted, b: bytes)
    requires |b| == 16
    ensures ParseIpv6(dotted, FormatIpv6(b)) == Some(b)
  {
    WordsOfArePlain(b);
    PlainIsBare(WordsOf(b));
    NothingDotted(WordsOf(b));
    EightWords(dotted, WordsOf(b));
  }

  lemma SideWords(words: seq<string>)
    requires Bare(words)
    ensures Words(Join(words)) == words
  {
    if words != [] {
      SplitJoin(words);
      JoinIsTidy(words);
    }
  }

  lemma TwoSides(head: seq<string>, tail: seq<string>)
    requires Bare(head) && Bare(tail)
    ensures var s := Join(head) + "::" + Join(tail);
            Unbracketed(s) == s && ':' in s && SplitDouble(s) == [Join(head), Join(tail)]
  {
    hide Join, Unbracketed, SplitDouble;
    JoinOrEmpty(head);
    JoinOrEmpty(tail);
    SidesAreBare(Join(head), Join(tail));
    SidesSplit(Join(head), Join(tail));
  }

  lemma SidesAreBare(a: string, b: string)
    requires (a == "" || Tidy(a)) && (b == "" || Tidy(b))
    ensures Unbracketed(a + "::" + b) == a + "::" + b && ':' in a + "::" + b
  {
    hide Unbracketed;
    var s := a + "::" + b;
    assert s[|a|] == ':';
    assert s[0] == (if a != "" then a[0] else ':');
    assert s[|s| - 1] == (if b != "" then b[|b| - 1] else ':');
    TidyIsBare(s);
  }

  lemma SidesSplit(a: string, b: string)
    requires (a == "" || Tidy(a)) && (b == "" || Tidy(b))
    ensures SplitDouble(a + "::" + b) == [a, b]
  {
    var s := a + "::" + b;
    FirstDouble(a, b);
    assert s[..|a|] == a && s[|a| + 2..] == b;
    NoDouble(b);
  }

  lemma JoinOrEmpty(words: seq<string>)
    requires Bare(words)
    ensures if words == [] then Join(words) == "" else Tidy(Join(words))
  {
    if words != [] {
      JoinIsTidy(words);
    }
  }

  /** A replaced last word is no longer dotted. */
  lemma ReplacedIsBare(dotted: Dotted, words: seq<string>)
    requires words != [] && Bare(words) && ReplaceLast(dotted, words).Some?
    ensures var r := ReplaceLast(dotted, words).value;
            Bare(r) && r != [] && !EndsDotted(r)
  {
    hide ToHex;
    var (a, b, c, d) := dotted(words[|words| - 1]).value;
    var two := [ToHex(256 * a + b), ToHex(256 * c + d)];
    ToHexRoundTrip(256 * a + b);
    ToHexRoundTrip(256 * c + d);
    PlainIsBare(two);
    NothingDotted(two);
    assert BareWord(two[0]) && BareWord(two[1]);
  }

  lemma SidesAreWords(dotted: Dotted, head: seq<string>, tail: seq<string>)
    requires Bare(head) && Bare(tail) && Sides(dotted, head, tail).Some?
    ensures var (h, t) := Sides(dotted, head, tail).value;
            Bare(h) && Bare(t) && !EndsDotted(t) && (t == [] ==> !EndsDotted(h))
  {
    hide ReplaceLast, Bare;
    if EndsDotted(tail) {
      ReplacedIsBare(dotted, tail);
    } else if EndsDotted(head) {
      ReplacedIsBare(dotted, head);
    }
  }

  lemma FilledWords(h: seq<string>, t: seq<string>)
    requires Bare(h) && Bare(t) && !EndsDotted(t) && (t == [] ==> !EndsDotted(h)) && |h| + |t| <= 8
    ensures var words := h + Zeros(8 - (|h| + |t|)) + t;
            |words| == 8 && Bare(words) && !EndsDotted(words)
  {
    var n := 8 - (|h| + |t|);
    var words := h + Zeros(n) + t;
    assert BareWord("0");
    assert words[7] == if t != [] then t[|t| - 1] else if n > 0 then "0" else h[7];
  }

  /** An abbreviated address means the same as with its zeros written out, and with the two
      words for a dotted last one: it is refused if that one is, or if there are too many. */
  lemma AbbreviationIsZeroFill(dotted: Dotted, head: seq<string>, tail: seq<string>)
    requires Bare(head) && Bare(tail)
    ensures ParseIpv6(dotted, Join(head) + "::" + Join(tail)) ==
            match Sides(dotted, head, tail)
            case None => None
            case Some((h, t)) =>
              if |h| + |t| > 8 then None else ParseIpv6(dotted, Join(h + Zeros(8 - (|h| + |t|)) + t))
  {
    hide WordBytes, Join, SplitDouble, Unbracketed, Bare, EndsDotted, Sides;
    TwoSides(head, tail);
    SideWords(head);
    SideWords(tail);
    if Sides(dotted, head, tail).Some? {
      SidesAreWords(dotted, head, tail);
      var (h, t) := Sides(dotted, head, tail).value;
      if |h| + |t| <= 8 {
        FilledWords(h, t);
        EightWords(dotted, h + Zeros(8 - (|h| + |t|)) + t);
      }
    }
  }

  /** Colon-separated hexadecimal words without an abbreviation are an address exactly if there
      are eight of them and none is above 0xFFFF; each gives two bytes, high one first. */
  lemma WordsExact(dotted: Dotted, words: seq<string>)
    requires |words| > 1 && Plain(words)
    ensures var r := ParseIpv6(dotted, Join(words));
            && (r.Some? <==> |words| == 8 && forall i :: 0 <= i < 8 ==> HexNumber(words[i]) <= 0xFFFF)
            && (r.Some? ==> |r.value| == 16 && forall i :: 0 <= i < 8 ==>
                              r.value[2 * i] == HexNumber(words[i]) / 256 &&
                              r.value[2 * i + 1] == HexNumber(words[i]) % 256)
  {
    hide WordBytes, Join, HexNumber, Plain, SplitDouble, Unbracketed;
    PlainIsBare(words);
    NothingDotted(words);
    Unabbreviated(words);
    WordBytesExact(words);
  }

  lemma Unabbreviated(words: seq<string>)
    requires |words| > 1 && Bare(words)
    ensures var s := Join(words);
            Unbracketed(s) == s && ':' in s && SplitDouble(s) == [s] && Words(s) == words
  {
    hide Join;
    JoinIsTidy(words);
    TidyIsBare(Join(words));
    NoDouble(Join(words));
    SplitJoin(words);
  }

  lemma {:induction false} WordBytesExact(words: seq<string>)
    requires Plain(words)
    ensures var r := WordBytes(words);
            && (r.Some? <==> forall i :: 0 <= i < |words| ==> HexNumber(words[i]) <= 0xFFFF)
            && (r.Some? ==> |r.value| == 2 * |words| && forall i :: 0 <= i < |words| ==>
                              r.value[2 * i] == HexNumber(words[i]) / 256 &&
                              r.value[2 * i + 1] == HexNumber(words[i]) % 256)
  {
    hide HexNumber, ParseInt16;
    if words != [] {
      PlainHexParses(words[0]);
      WordBytesExact(words[1..]);
      assert forall i :: 1 <= i < |words| ==> words[i] == words[1..][i - 1];
    }
  }

  /** A dotted last word stands for four bytes, in order. */
  lemma DottedTail(dotted: Dotted, b: bytes, q: string)
    requires |b| == 12 && BareWord(q) && '.' in q
    ensures ParseIpv6(dotted, Join(WordsOf(b) + [q])) ==
            match dotted(q)
            case None => None
            case Some((w, x, y, z)) => Some(b + [w, x, y, z])
  {
    hide WordsOf, WordBytes, Join, Bare, BareWord, Unbracketed, SplitDouble;
    var words := WordsOf(b) + [q];
    DottedWords(b, q);
    Unabbreviated(words);
    assert words[..6] == WordsOf(b);
    if dotted(q).Some? {
      var (w, x, y, z) := dotted(q).value;
      WordsOfDotted(b, w, x, y, z);
      WordsOfArePlain(b + [w, x, y, z]);
    }
  }

  lemma DottedWords(b: bytes, q: string)
    requires |b| == 12 && BareWord(q)
    ensures |WordsOf(b)| == 6 && Bare(WordsOf(b) + [q])
  {
    hide BareWord;
    WordsOfArePlain(b);
    PlainIsBare(WordsOf(b));
  }

  lemma {:induction false} WordsOfDotted(b: bytes, w: byte, x: byte, y: byte, z: byte)
    requires |b| % 2 == 0
    ensures WordsOf(b + [w, x, y, z]) ==
            WordsOf(b) + [ToHex(256 * (w as nat) + x as nat), ToHex(256 * (y as nat) + z as nat)]
    decreases |b|
  {
    hide ToHex;
    var all := b + [w, x, y, z];
    if b == [] {
      assert all == [w, x, y, z] && all[2..] == [y, z] && all[2..][2..] == [];
      NextWord(all, 0);
      NextWord(all, 2);
    } else {
      assert all[..2] == b[..2] && all[2..] == b[2..] + [w, x, y, z];
      WordsOfDotted(b[2..], w, x, y, z);
    }
  }

  /** Brackets and white space around an address do not count. */
  lemma WrappingIgnored(dotted: Dotted, s: string, c: char)
    requires s != "" && !IsSpace(s[0]) && !IsSpace(s[|s| - 1]) && s[0] != '['
    requires c == ' ' || c == '\t' || c == '\n' || c == '\r'
    ensures ParseIpv6(dotted, "[" + s + "]") == ParseIpv6(dotted, s)
    ensures ParseIpv6(dotted, [c] + s) == ParseIpv6(dotted, s) == ParseIpv6(dotted, s + [c])
  {
    hide Unbracketed, SplitDouble, Sides, Fill, WordBytes, Words;
    TidyIsBare(s);
    BracketsOff(s);
    SpaceOff(s, c);
  }

  lemma BracketsOff(s: string)
    ensures Unbracketed("[" + s + "]") == s
  {
    var t := "[" + s + "]";
    assert t[0] == '[' && t[|t| - 1] == ']' && t[1..|t| - 1] == s;
  }

  lemma SpaceOff(s: string, c: char)
    requires s != "" && !IsSpace(s[0]) && !IsSpace(s[|s| - 1]) && IsSpace(c)
    ensures Unbracketed([c] + s) == Unbracketed(s) == Unbracketed(s + [c])
  {
    hide IsSpace;
    TrimNothing(s);
    assert ([c] + s)[1..] == s && (s + [c])[..|s|] == s;
    assert TrimStart([c] + s) == TrimStart(s);
    assert TrimStart(s + [c]) == s + [c] && TrimEnd(s + [c]) == TrimEnd(s);
  }

  lemma TrimNothing(s: string)
    requires s != "" && !IsSpace(s[0]) && !IsSpace(s[|s| - 1])
    ensures TrimStart(s) == s && TrimEnd(s) == s
  {
  }

  /** Two abbreviations are one too many. */
  lemma TwoAbbreviations(dotted: Dotted, a: string, b: string, c: string)
    requires (a == "" || Tidy(a)) && (b == "" || Tidy(b))
    requires Unbracketed(a + "::" + (b + "::" + c)) == a + "::" + (b + "::" + c)
    ensures ParseIpv6(dotted, a + "::" + (b + "::" + c)) == None
  {
    hide Tidy, Unbracketed;
    var rest := b + "::" + c;
    var s := a + "::" + rest;
    FirstDouble(a, rest);
    FirstDouble(b, c);
    assert s[..|a|] == a && s[|a| + 2..] == rest && s[|a|] == ':';
    assert SplitDouble(s) == [a] + SplitDouble(rest);
    assert |SplitDouble(rest)| >= 2;
  }

  // Dotted IPv4 and the encoding.

  predicate IsDecimal(c: char) {
    '0' <= c <= '9'
  }

  /** One to three decimal digits. */
  predicate OctetText(s: string) {
    1 <= |s| <= 3 && forall i :: 0 <= i < |s| ==> IsDecimal(s[i])
  }

  function DecimalNumber(s: string): nat
    requires forall i :: 0 <= i < |s| ==> IsDecimal(s[i])
  {
    if s == "" then 0
    else
      assert IsDecimal(s[|s| - 1]);
      DecimalNumber(s[..|s| - 1]) * 10 + (s[|s| - 1] - '0') as nat
  }

  function Octets(parts: seq<string>): Option<bytes> {
    if parts == [] then Some([])
    else if !OctetText(parts[0]) || DecimalNumber(parts[0]) > 255 then None
    else
      match Octets(parts[1..])
      case None => None
      case Some(rest) => Some([DecimalNumber(parts[0])] + rest)
  }

  function MatchIpv4(host: string): Option<bytes> {
    var parts := SplitAt(host, '.');
    if |parts| == 4 then Octets(parts) else None
  }

  /** How the client reads a host: dotted IPv4, then IPv6, then a name in UTF-8. */
  function TargetOf(dotted: Dotted, utf8: string -> bytes, host: string, port: int): Option<Target> {
    if port < 1 || port > 65535 then None
    else if MatchIpv4(host).Some? then Some(V4(MatchIpv4(host).value, port))
    else if ParseIpv6(dotted, host).Some? then Some(V6(ParseIpv6(dotted, host).value, port))
    else if 1 <= |utf8(host)| <= 255 then Some(Domain(utf8(host), port))
    else None
  }

  lemma {:induction false} OctetsLength(parts: seq<string>)
    ensures Octets(parts).Some? ==> |Octets(parts).value| == |parts|
  {
    if parts != [] {
      OctetsLength(parts[1..]);
    }
  }

  lemma {:induction false} WordBytesLength(words: seq<string>)
    ensures WordBytes(words).Some? ==> |WordBytes(words).value| == 2 * |words|
  {
    if words != [] {
      WordBytesLength(words[1..]);
    }
  }

  lemma Ipv6Length(dotted: Dotted, s: string)
    ensures ParseIpv6(dotted, s).Some? ==> |ParseIpv6(dotted, s).value| == 16
  {
    hide WordBytes, SplitDouble, Unbracketed, Sides;
    if ParseIpv6(dotted, s).Some? {
      var parts := SplitDouble(Unbracketed(s));
      var sides := Sides(dotted, Words(parts[0]), if |parts| == 2 then Words(parts[1]) else []).value;
      WordBytesLength(Fill(|parts|, sides.0, sides.1).value);
    }
  }

  /** The encoder fills one buffer per form. */
  method EncodeAddress(dotted: Dotted, utf8: string -> bytes, host: string, port: int) returns (r: Option<bytes>)
    ensures match TargetOf(dotted, utf8, host, port)
            case None => r == None
            case Some(t) => Encodable(t) && r == Some(Encode(t))
  {
    hide MatchIpv4, ParseIpv6;
    if port < 1 || port > 65535 {
      return None;
    }
    var octets := MatchIpv4(host);
    if octets.Some? {
      Ipv4Length(host);
      var out := new byte[7];
      out[0] := 1;
      forall i | 0 <= i < 4 {
        out[1 + i] := octets.value[i];
      }
      out[5], out[6] := port / 256, port % 256;
      assert out[..] == [1] + octets.value + Be16(port);
      return Some(out[..]);
    }
    var v6Bytes := ParseIpv6(dotted, host);
    if v6Bytes.Some? {
      Ipv6Length(dotted, host);
      var out := new byte[19];
      out[0] := 4;
      forall i | 0 <= i < 16 {
        out[1 + i] := v6Bytes.value[i];
      }
      out[17], out[18] := port / 256, port % 256;
      assert out[..] == [4] + v6Bytes.value + Be16(port);
      return Some(out[..]);
    }
    var domainBytes := utf8(host);
    if |domainBytes| == 0 || |domainBytes| > 255 {
      return None;
    }
    var n := |domainBytes|;
    var out := new byte[4 + n];
    out[0], out[1] := 3, n;
    forall i | 0 <= i < n {
      out[2 + i] := domainBytes[i];
    }
    out[2 + n], out[3 + n] := port / 256, port % 256;
    assert out[..] == [3, n] + domainBytes + Be16(port);
    r := Some(out[..]);
  }

  lemma Ipv4Length(host: string)
    ensures MatchIpv4(host).Some? ==> |MatchIpv4(host).value| == 4
  {
    OctetsLength(SplitAt(host, '.'));
  }

  /** Whatever host and port the client can encode, the Go server decodes to the same target. */
  lemma GoDecodesAddress(dotted: Dotted, utf8: string -> bytes, host: string, port: int)
    requires TargetOf(dotted, utf8, host, port).Some?
    ensures var t := TargetOf(dotted, utf8, host, port).value;
            Encodable(t) && ParseBrookDestination(Encode(t)) == Some(t)
  {
    hide MatchIpv4, ParseIpv6, Encode, ParseBrookDestination;
    Ipv4Length(host);
    Ipv6Length(dotted, host);
    DestinationRoundTrip(TargetOf(dotted, utf8, host, port).value);
  }

  lemma {:induction false} NoDots(words: seq<string>)
    requires Plain(words)
    ensures '.' !in Join(words)
    decreases |words|
  {
    if words != [] {
      HexIsNotColon(words[0]);
      NoDots(words[1..]);
    }
  }

  /** So the text the client shows for a sixteen-byte address leads the server back to it. */
  lemma FormattedIpv6Encodes(dotted: Dotted, utf8: string -> bytes, b: bytes, port: int)
    requires |b| == 16 && 1 <= port <= 65535
    ensures TargetOf(dotted, utf8, FormatIpv6(b), port) == Some(V6(b, port))
  {
    hide ParseIpv6, Join;
    Ipv6RoundTrip(dotted, b);
    WordsOfArePlain(b);
    NoDots(WordsOf(b));
    NoIndex(FormatIpv6(b), '.');
  }

  function DecimalDigit(n: nat): char
    requires n < 10
  {
    '0' + n as char
  }

  function ToDecimal(b: byte): string {
    if b < 10 then [DecimalDigit(b)]
    else if b < 100 then [DecimalDigit(b / 10), DecimalDigit(b % 10)]
    else [DecimalDigit(b / 100), DecimalDigit(b / 10 % 10), DecimalDigit(b % 10)]
  }

  /** The text of a four-byte address. */
  function FormatIpv4(b: bytes): string
    requires |b| == 4
  {
    ToDecimal(b[0]) + "." + (ToDecimal(b[1]) + "." + (ToDecimal(b[2]) + "." + ToDecimal(b[3])))
  }

  lemma DecimalSnoc(s: string, d: nat)
    requires d < 10 && forall i :: 0 <= i < |s| ==> IsDecimal(s[i])
    ensures forall i :: 0 <= i <= |s| ==> IsDecimal((s + [DecimalDigit(d)])[i])
    ensures DecimalNumber(s + [DecimalDigit(d)]) == 10 * DecimalNumber(s) + d
    ensures '.' !in s ==> '.' !in s + [DecimalDigit(d)]
  {
    var t := s + [DecimalDigit(d)];
    assert t[..|t| - 1] == s && IsDecimal(DecimalDigit(d));
  }

  lemma ToDecimalRoundTrip(b: byte)
    ensures OctetText(ToDecimal(b)) && DecimalNumber(ToDecimal(b)) == b && '.' !in ToDecimal(b)
  {
    hide DecimalNumber, DecimalDigit, IsDecimal;
    var n := b as nat;
    NoDigits();
    if n < 10 {
      DecimalSnoc([], n);
      assert [] + [DecimalDigit(n)] == ToDecimal(b);
    } else if n < 100 {
      DecimalSnoc([], n / 10);
      DecimalSnoc([] + [DecimalDigit(n / 10)], n % 10);
      assert [] + [DecimalDigit(n / 10)] + [DecimalDigit(n % 10)] == ToDecimal(b);
    } else {
      DecimalSnoc([], n / 100);
      DecimalSnoc([] + [DecimalDigit(n / 100)], n / 10 % 10);
      DecimalSnoc([] + [DecimalDigit(n / 100)] + [DecimalDigit(n / 10 % 10)], n % 10);
      assert [] + [DecimalDigit(n / 100)] + [DecimalDigit(n / 10 % 10)] + [DecimalDigit(n % 10)] == ToDecimal(b);
    }
  }

  lemma NoDigits()
    ensures DecimalNumber([]) == 0
  {
  }

  lemma SplitOne(a: string, rest: string)
    requires '.' !in a
    ensures SplitAt(a + "." + rest, '.') == [a] + SplitAt(rest, '.')
  {
    IndexOfFirst(a, rest, '.');
    var s := a + "." + rest;
    assert s[..|a|] == a && s[|a| + 1..] == rest;
  }

  lemma FormattedIpv4Encodes(dotted: Dotted, utf8: string -> bytes, b: bytes, port: int)
    requires |b| == 4 && 1 <= port <= 65535
    ensures TargetOf(dotted, utf8, FormatIpv4(b), port) == Some(V4(b, port))
  {
    hide ToDecimal, ParseIpv6, SplitAt, Octets;
    var w, x, y, z := ToDecimal(b[0]), ToDecimal(b[1]), ToDecimal(b[2]), ToDecimal(b[3]);
    FourParts(b);
    OneOctet(b[3], [], []);
    assert [z] + [] == [z] && [b[3]] + [] == [b[3]];
    OneOctet(b[2], [z], [b[3]]);
    OneOctet(b[1], [y] + [z], [b[2]] + [b[3]]);
    OneOctet(b[0], [x] + ([y] + [z]), [b[1]] + ([b[2]] + [b[3]]));
    assert [b[0]] + ([b[1]] + ([b[2]] + [b[3]])) == b;
  }

  lemma FourParts(b: bytes)
    requires |b| == 4
    ensures SplitAt(FormatIpv4(b), '.') ==
            [ToDecimal(b[0])] + ([ToDecimal(b[1])] + ([ToDecimal(b[2])] + [ToDecimal(b[3])]))
  {
    hide ToDecimal, IndexOf;
    var w, x, y, z := ToDecimal(b[0]), ToDecimal(b[1]), ToDecimal(b[2]), ToDecimal(b[3]);
    ToDecimalRoundTrip(b[0]);
    ToDecimalRoundTrip(b[1]);
    ToDecimalRoundTrip(b[2]);
    ToDecimalRoundTrip(b[3]);
    SplitOne(w, x + "." + (y + "." + z));
    SplitOne(x, y + "." + z);
    SplitOne(y, z);
    NoIndex(z, '.');
  }

  lemma OneOctet(b: byte, parts: seq<string>, rest: bytes)
    requires parts == [] ==> rest == []
    requires parts != [] ==> Octets(parts) == Some(rest)
    ensures Octets([ToDecimal(b)] + parts) == Some([b] + rest)
  {
    hide ToDecimal, DecimalNumber, OctetText;
    ToDecimalRoundTrip(b);
    assert ([ToDecimal(b)] + parts)[1..] == parts;
  }

  /** Four numbers of one to three digits with dots between them name an IPv4 address exactly
      if none is above 255, leading zeros or not. */
  lemma QuadExact(w: string, x: string, y: string, z: string)
    requires OctetText(w) && OctetText(x) && OctetText(y) && OctetText(z)
    ensures var (a, b, c, d) := (DecimalNumber(w), DecimalNumber(x), DecimalNumber(y), DecimalNumber(z));
            MatchIpv4(w + "." + (x + "." + (y + "." + z))) ==
            if a <= 255 && b <= 255 && c <= 255 && d <= 255 then Some([a, b, c, d]) else None
  {
    hide OctetText, DecimalNumber, SplitAt, Octets;
    QuadParts(w, x, y, z);
    QuadOctets(w, x, y, z);
  }

  lemma QuadOctets(w: string, x: string, y: string, z: string)
    requires OctetText(w) && OctetText(x) && OctetText(y) && OctetText(z)
    ensures var (a, b, c, d) := (DecimalNumber(w), DecimalNumber(x), DecimalNumber(y), DecimalNumber(z));
            Octets([w] + ([x] + ([y] + [z]))) ==
            if a <= 255 && b <= 255 && c <= 255 && d <= 255 then Some([a, b, c, d]) else None
  {
    hide DecimalNumber, Octets;
    OctetStep(w, [x] + ([y] + [z]));
    OctetStep(x, [y] + [z]);
    OctetStep(y, [z]);
    LastOctet(z);
    var (a, b, c, d) := (DecimalNumber(w), DecimalNumber(x), DecimalNumber(y), DecimalNumber(z));
    assert [a] + ([b] + ([c] + [d])) == [a, b, c, d];
  }

  lemma LastOctet(w: string)
    requires OctetText(w)
    ensures Octets([w]) == if DecimalNumber(w) > 255 then None else Some([DecimalNumber(w)])
  {
    hide DecimalNumber;
    assert [w][1..] == [] && Octets([]) == Some([]);
    assert [DecimalNumber(w)] + [] == [DecimalNumber(w)];
  }

  lemma SplitLast(z: string)
    requires '.' !in z
    ensures SplitAt(z, '.') == [z]
  {
    NoIndex(z, '.');
  }

  lemma QuadParts(w: string, x: string, y: string, z: string)
    requires OctetText(w) && OctetText(x) && OctetText(y) && OctetText(z)
    ensures SplitAt(w + "." + (x + "." + (y + "." + z)), '.') == [w] + ([x] + ([y] + [z]))
  {
    hide OctetText, SplitAt;
    NoDot(w);
    NoDot(x);
    NoDot(y);
    NoDot(z);
    SplitOne(w, x + "." + (y + "." + z));
    SplitOne(x, y + "." + z);
    SplitOne(y, z);
    SplitLast(z);
  }

  lemma NoDot(w: string)
    requires OctetText(w)
    ensures '.' !in w
  {
  }

  lemma OctetStep(w: string, parts: seq<string>)
    requires OctetText(w)
    ensures Octets([w] + parts) ==
            if DecimalNumber(w) > 255 || Octets(parts).None? then None
            else Some([DecimalNumber(w)] + Octets(parts).value)
  {
    hide DecimalNumber;
    assert ([w] + parts)[1..] == parts;
  }

  // Names.

  lemma {:induction false} InSomePart(s: string, c: char, i: nat) returns (j: nat)
    requires i < |s| && s[i] != c
    ensures j < |SplitAt(s, c)| && s[i] in SplitAt(s, c)[j]
    decreases |s|
  {
    var k := IndexOf(s, c);
    if i < k {
      j := 0;
      assert s[..k][i] == s[i];
    } else {
      var rest := s[k + 1..];
      assert rest[i - k - 1] == s[i];
      j := InSomePart(rest, c, i - k - 1);
      j := j + 1;
    }
  }

  lemma {:induction false} BadPart(parts: seq<string>, j: nat)
    requires j < |parts| && !OctetText(parts[j])
    ensures Octets(parts) == None
  {
    if j > 0 {
      BadPart(parts[1..], j - 1);
    }
  }

  lemma {:induction false} TrimmedStart(s: string, c: char)
    requires c !in s
    ensures c !in TrimStart(s)
  {
    if s != "" && IsSpace(s[0]) {
      assert forall x :: x in s[1..] ==> x in s;
      TrimmedStart(s[1..], c);
    }
  }

  lemma {:induction false} TrimmedEnd(s: string, c: char)
    requires c !in s
    ensures c !in TrimEnd(s)
    decreases |s|
  {
    if s != "" && IsSpace(s[|s| - 1]) {
      assert forall x :: x in s[..|s| - 1] ==> x in s;
      TrimmedEnd(s[..|s| - 1], c);
    }
  }

  lemma NoColonNoIpv6(dotted: Dotted, host: string)
    requires ':' !in host
    ensures ParseIpv6(dotted, host) == None
  {
    hide TrimStart, TrimEnd, SplitDouble, Sides, Fill, WordBytes;
    TrimmedStart(host, ':');
    TrimmedEnd(TrimStart(host), ':');
    var t := TrimEnd(TrimStart(host));
    assert |t| >= 2 ==> forall x :: x in t[1..|t| - 1] ==> x in t;
  }

  /** A host with a character that is neither a digit, a dot nor a colon, and without colons, is
      a name: it is sent as its UTF-8 bytes if there are 1 to 255 of them and the port is a
      port, and refused otherwise. */
  lemma NameIsSentAsName(dotted: Dotted, utf8: string -> bytes, host: string, i: nat, port: int)
    requires i < |host| && !IsDecimal(host[i]) && host[i] != '.' && ':' !in host
    ensures TargetOf(dotted, utf8, host, port) ==
            if 1 <= port <= 65535 && 1 <= |utf8(host)| <= 255 then Some(Domain(utf8(host), port)) else None
  {
    hide ParseIpv6, SplitAt, Octets;
    NoColonNoIpv6(dotted, host);
    var j := InSomePart(host, '.', i);
    var part := SplitAt(host, '.')[j];
    var k :| 0 <= k < |part| && part[k] == host[i];
    assert !OctetText(part);
    BadPart(SplitAt(host, '.'), j);
  }
}
