/** The checksum of the PNG writer (section 3.4 of RFC 2083): the table-driven form against
    division bit by bit, what errors it detects, and the chunks and scanlines built on it. */
module Crc32 {

  type word = bv32
  type octet = bv8
  type octets = seq<octet>

  const ONES: word := 0xFFFFFFFF

  // Word operations under names of their own, so that proofs about the division can do
  // without their bits.

  function Xor(a: word, b: word): word {
    a ^ b
  }

  function Half(w: word): word {
    w >> 1
  }

  predicate Odd(w: word) {
    w & 1 == 1
  }

  function Low(w: word): word {
    w & 0xFF
  }

  function High(w: word): word {
    w >> 8
  }

  /** One step of the division on a reflected register. */
  function Shift(c: word): word {
    if Odd(c) then Xor(0xEDB88320, Half(c)) else Half(c)
  }

  function Shifts(c: word, k: nat): word
    decreases k
  {
    if k == 0 then c else Shifts(Shift(c), k - 1)
  }

  // The reference: division of the message, bit by bit, least significant bit of a byte first.

  function TakeBit(c: word, bit: bool): word {
    Shift(Xor(c, if bit then 1 else 0))
  }

  function TakeBits(c: word, bits: seq<bool>): word
    decreases |bits|
  {
    if bits == [] then c else TakeBits(TakeBit(c, bits[0]), bits[1..])
  }

  function LowBits(w: word, k: nat): (bits: seq<bool>)
    ensures |bits| == k
    decreases k
  {
    if k == 0 then [] else [Odd(w)] + LowBits(Half(w), k - 1)
  }

  function Wide(b: octet): word {
    b as word
  }

  function MessageBits(m: octets): seq<bool> {
    if m == [] then [] else LowBits(Wide(m[0]), 8) + MessageBits(m[1..])
  }

  /** All-ones register, all bits of the message, complement. */
  function Crc(m: octets): word {
    Xor(TakeBits(ONES, MessageBits(m)), ONES)
  }

  // Facts about single words.

  lemma HalfOfXor(a: word, b: word)
    ensures Half(Xor(a, b)) == Xor(Half(a), Half(b))
    ensures Odd(Xor(a, b)) == (Odd(a) != Odd(b))
  {
  }

  lemma XorAssociates(p: word, x: word, y: word)
    ensures Xor(p, Xor(x, y)) == Xor(Xor(p, x), y)
  {
    assert p ^ (x ^ y) == (p ^ x) ^ y;
  }

  lemma XorCommutes(x: word, y: word)
    ensures Xor(x, y) == Xor(y, x)
  {
    assert x ^ y == y ^ x;
  }

  lemma XorRegroups(p: word, x: word, y: word)
    ensures Xor(p, Xor(x, y)) == Xor(Xor(p, x), y) == Xor(x, Xor(p, y)) == Xor(Xor(p, y), x)
    ensures Xor(Xor(p, x), Xor(p, y)) == Xor(x, y)
  {
    hide Xor;
    XorAssociates(p, x, y);
    XorAssociates(x, p, y);
    XorCommutes(p, x);
    XorCommutes(x, Xor(p, y));
    XorAssociates(Xor(p, x), p, y);
    XorAssociates(x, p, p);
    XorCancels(p, p);
    XorCancels(x, 0);
  }

  lemma XorCancels(x: word, y: word)
    ensures Xor(Xor(x, y), y) == x && Xor(x, 0) == x == Xor(0, x) && Xor(x, y) == Xor(y, x)
    ensures Xor(x, y) == 0 <==> x == y
  {
  }

  lemma EvenPart(w: word)
    ensures w == Xor(if Odd(w) then 1 else 0, w & 0xFFFFFFFE)
    ensures !Odd(w & 0xFFFFFFFE) && Half(w & 0xFFFFFFFE) == Half(w)
  {
  }

  lemma OctetIsSmall(b: octet)
    ensures High(Wide(b)) == 0 && Low(Wide(b)) == Wide(b)
  {
  }

  // Linearity.

  lemma ShiftLinear(a: word, b: word)
    ensures Shift(Xor(a, b)) == Xor(Shift(a), Shift(b))
  {
    hide Xor, Half, Odd;
    HalfOfXor(a, b);
    XorRegroups(0xEDB88320, Half(a), Half(b));
  }

  lemma {:induction false} ShiftsLinear(a: word, b: word, k: nat)
    ensures Shifts(Xor(a, b), k) == Xor(Shifts(a, k), Shifts(b, k))
    decreases k
  {
    hide Shift, Xor;
    if k > 0 {
      ShiftLinear(a, b);
      ShiftsLinear(Shift(a), Shift(b), k - 1);
    }
  }

  lemma {:induction false} ShiftsAdd(c: word, i: nat, j: nat)
    ensures Shifts(c, i + j) == Shifts(Shifts(c, i), j)
    decreases i
  {
    hide Shift;
    if i > 0 {
      ShiftsAdd(Shift(c), i - 1, j);
    }
  }

  function Halves(w: word, k: nat): word
    decreases k
  {
    if k == 0 then w else Halves(Half(w), k - 1)
  }

  /** Taking in the low bit of a word leaves the rest of the word one place further down. */
  lemma OneBit(c: word, w: word)
    ensures Shift(Xor(c, w)) == Xor(TakeBit(c, Odd(w)), Half(w))
  {
    hide Xor, Half, Odd;
    EvenPart(w);
    var bit: word, even := if Odd(w) then 1 else 0, w & 0xFFFFFFFE;
    XorRegroups(c, bit, even);
    ShiftLinear(Xor(c, bit), even);
  }

  /** A whole word can be put into the register at once: k steps then take in its k low bits. */
  lemma {:induction false} BitsAtOnce(c: word, w: word, k: nat)
    ensures Shifts(Xor(c, w), k) == Xor(TakeBits(c, LowBits(w, k)), Halves(w, k))
    decreases k
  {
    hide Shift, TakeBit, Xor, Half, Odd;
    if k > 0 {
      OneBit(c, w);
      BitsAtOnce(TakeBit(c, Odd(w)), Half(w), k - 1);
      assert LowBits(w, k)[1..] == LowBits(Half(w), k - 1);
    }
  }

  lemma {:induction false} HalvesAdd(w: word, i: nat, j: nat)
    ensures Halves(w, i + j) == Halves(Halves(w, i), j)
    decreases i
  {
    hide Half;
    if i > 0 {
      HalvesAdd(Half(w), i - 1, j);
    }
  }

  function Quarter(w: word): word {
    w >> 2
  }

  function Sixteenth(w: word): word {
    w >> 4
  }

  lemma HalfOfHalf(w: word)
    ensures Half(Half(w)) == Quarter(w)
  {
    assert (w >> 1) >> 1 == w >> 2;
  }

  lemma QuarterOfQuarter(w: word)
    ensures Quarter(Quarter(w)) == Sixteenth(w)
  {
    assert (w >> 2) >> 2 == w >> 4;
  }

  lemma SixteenthOfSixteenth(w: word)
    ensures Sixteenth(Sixteenth(w)) == High(w)
  {
    assert (w >> 4) >> 4 == w >> 8;
  }

  lemma HalvesTwo(w: word)
    ensures Halves(w, 2) == Quarter(w)
  {
    hide Half, Quarter;
    HalfOfHalf(w);
    assert Halves(Half(w), 1) == Halves(Half(Half(w)), 0);
  }

  lemma HalvesEight(w: word)
    ensures Halves(w, 8) == High(w)
  {
    hide Halves, Half, Quarter, Sixteenth, High;
    var v := Sixteenth(w);
    HalvesAdd(w, 4, 4);
    HalvesAdd(w, 2, 2);
    HalvesAdd(v, 2, 2);
    HalvesTwo(w);
    HalvesTwo(Quarter(w));
    HalvesTwo(v);
    HalvesTwo(Quarter(v));
    QuarterOfQuarter(w);
    QuarterOfQuarter(v);
    SixteenthOfSixteenth(w);
  }

  /** The step the table replaces: eight divisions are one look-up of the low byte. */
  lemma TableStep(c: word)
    ensures Shifts(c, 8) == Xor(Shifts(Low(c), 8), High(c))
  {
    hide Shifts, Xor, High, TakeBits, Halves, LowBits;
    BitsAtOnce(0, c, 8);
    BitsAtOnce(0, Low(c), 8);
    HalvesEight(c);
    HalvesEight(Low(c));
    SameLowBits(c);
    NoHigh(c);
    XorCancels(c, 0);
    XorCancels(Low(c), 0);
    XorCancels(TakeBits(0, LowBits(Low(c), 8)), 0);
  }

  lemma NoHigh(c: word)
    ensures High(Low(c)) == 0
  {
  }

  predicate Agree(a: word, b: word, mask: word) {
    a & mask == b & mask
  }

  lemma AgreeHalf(a: word, b: word, mask: word)
    requires Agree(a, b, mask) && Odd(mask)
    ensures Odd(a) == Odd(b) && Agree(Half(a), Half(b), Half(mask))
  {
  }

  predicate Ones(mask: word, k: nat)
    decreases k
  {
    k == 0 || (Odd(mask) && Ones(Half(mask), k - 1))
  }

  lemma {:induction false} SameBits(a: word, b: word, mask: word, k: nat)
    requires Agree(a, b, mask) && Ones(mask, k)
    ensures LowBits(a, k) == LowBits(b, k)
    decreases k
  {
    hide Agree, Odd, Half;
    if k > 0 {
      AgreeHalf(a, b, mask);
      SameBits(Half(a), Half(b), Half(mask), k - 1);
    }
  }

  lemma SameLowBits(c: word)
    ensures LowBits(c, 8) == LowBits(Low(c), 8)
  {
    hide LowBits;
    assert Ones(0x0F, 4) && Ones(0x1F, 5) && Ones(0x3F, 6) && Ones(0x7F, 7);
    SameBits(c, Low(c), 0xFF, 8);
  }

  // A byte at a time.

  function TakeOctet(c: word, b: octet): word {
    Shifts(Xor(c, Wide(b)), 8)
  }

  function TakeOctets(c: word, m: octets): word
    decreases |m|
  {
    if m == [] then c else TakeOctets(TakeOctet(c, m[0]), m[1..])
  }

  lemma {:induction false} TakeBitsAppend(c: word, a: seq<bool>, b: seq<bool>)
    ensures TakeBits(c, a + b) == TakeBits(TakeBits(c, a), b)
    decreases |a|
  {
    hide TakeBit;
    if a == [] {
      assert a + b == b;
    } else {
      assert (a + b)[1..] == a[1..] + b;
      TakeBitsAppend(TakeBit(c, a[0]), a[1..], b);
    }
  }

  lemma OctetIsBits(c: word, b: octet)
    ensures TakeOctet(c, b) == TakeBits(c, LowBits(Wide(b), 8))
  {
    hide Shifts, TakeBits, Halves, LowBits, Xor, Wide, High, Low;
    BitsAtOnce(c, Wide(b), 8);
    HalvesEight(Wide(b));
    OctetIsSmall(b);
    XorCancels(TakeBits(c, LowBits(Wide(b), 8)), 0);
  }

  lemma {:induction false} OctetsAreBits(c: word, m: octets)
    ensures TakeOctets(c, m) == TakeBits(c, MessageBits(m))
    decreases |m|
  {
    hide TakeOctet, LowBits;
    if m != [] {
      OctetIsBits(c, m[0]);
      TakeBitsAppend(c, LowBits(Wide(m[0]), 8), MessageBits(m[1..]));
      OctetsAreBits(TakeOctet(c, m[0]), m[1..]);
    }
  }

  lemma {:induction false} TakeOctetsAppend(c: word, a: octets, b: octets)
    ensures TakeOctets(c, a + b) == TakeOctets(TakeOctets(c, a), b)
    decreases |a|
  {
    hide TakeOctet;
    if a == [] {
      assert a + b == b;
    } else {
      assert (a + b)[1..] == a[1..] + b;
      TakeOctetsAppend(TakeOctet(c, a[0]), a[1..], b);
    }
  }

  // The table-driven form.

  lemma IndexRoundTrip(w: word)
    requires Low(w) == w
    ensures w as int < 256 && (w as int) as word == w
  {
  }

  /** Entry i of the table: eight divisions of i. */
  method TableEntry(i: nat) returns (c: word)
    requires i < 256
    ensures c == Shifts(i as word, 8)
  {
    hide Xor, Half, Odd;
    c := i as word;
    var k := 0;
    while k < 8
      invariant k <= 8 && Shifts(c, 8 - k) == Shifts(i as word, 8)
    {
      c := if Odd(c) then Xor(0xEDB88320, Half(c)) else Half(c);
      k := k + 1;
    }
  }

  /** One look-up and one shift per byte; the table is filled first. */
  method TableCrc(buf: octets) returns (r: word)
    ensures r == Crc(buf)
  {
    hide Xor, Low, High, Wide, Shifts, TakeOctet, Crc;
    var table := new word[256];
    var i := 0;
    while i < 256
      invariant i <= 256
      invariant forall j :: 0 <= j < i ==> table[j] == Shifts(j as word, 8)
    {
      table[i] := TableEntry(i);
      i := i + 1;
    }
    var crc := ONES;
    i := 0;
    assert buf[0..] == buf;
    while i < |buf|
      invariant i <= |buf|
      invariant forall j :: 0 <= j < 256 ==> table[j] == Shifts(j as word, 8)
      invariant TakeOctets(crc, buf[i..]) == TakeOctets(ONES, buf)
    {
      var mixed := Xor(crc, Wide(buf[i]));
      LowIsLow(mixed);
      IndexRoundTrip(Low(mixed));
      NextOctet(crc, buf, i);
      HighOfMixed(crc, buf[i]);
      crc := Xor(table[Low(mixed) as int], High(crc));
      i := i + 1;
    }
    assert buf[i..] == [];
    OctetsAreBits(ONES, buf);
    ByOctets(buf);
    r := Xor(crc, ONES);
  }

  lemma ByOctets(m: octets)
    ensures Crc(m) == Xor(TakeOctets(ONES, m), ONES)
  {
    hide Xor;
    OctetsAreBits(ONES, m);
  }

  lemma LowIsLow(w: word)
    ensures Low(Low(w)) == Low(w)
  {
  }

  lemma HighOfMixed(c: word, b: octet)
    ensures High(Xor(c, Wide(b))) == High(c)
  {
  }

  lemma NextOctet(crc: word, buf: octets, i: nat)
    requires i < |buf|
    ensures var mixed := Xor(crc, Wide(buf[i]));
            TakeOctets(crc, buf[i..]) == TakeOctets(Xor(Shifts(Low(mixed), 8), High(mixed)), buf[i + 1..])
  {
    hide Xor, Low, High, Wide, Shifts;
    TableStep(Xor(crc, Wide(buf[i])));
    assert buf[i..][0] == buf[i] && buf[i..][1..] == buf[i + 1..];
  }

  // What it detects.

  lemma OddStaysNonzero(c: word)
    ensures Xor(0xEDB88320, Half(c)) != 0
  {
  }

  lemma EvenStaysNonzero(c: word)
    requires !Odd(c) && Half(c) == 0
    ensures c == 0
  {
  }

  lemma ShiftToZero(c: word)
    requires Shift(c) == 0
    ensures c == 0
  {
    hide Xor, Half, Odd;
    OddStaysNonzero(c);
    if !Odd(c) {
      EvenStaysNonzero(c);
    }
  }

  /** No two registers become the same. */
  lemma {:induction false} ShiftsInjective(a: word, b: word, k: nat)
    requires Shifts(a, k) == Shifts(b, k)
    ensures a == b
    decreases k
  {
    hide Shift, Xor;
    if k > 0 {
      ShiftsInjective(Shift(a), Shift(b), k - 1);
      ShiftLinear(a, b);
      XorCancels(Shift(a), Shift(b));
      ShiftToZero(Xor(a, b));
      XorCancels(a, b);
    }
  }

  lemma {:induction false} OctetsInjective(a: word, b: word, m: octets)
    requires TakeOctets(a, m) == TakeOctets(b, m)
    ensures a == b
    decreases |m|
  {
    hide Shifts, Xor, Wide;
    if m != [] {
      OctetsInjective(TakeOctet(a, m[0]), TakeOctet(b, m[0]), m[1..]);
      ShiftsInjective(Xor(a, Wide(m[0])), Xor(b, Wide(m[0])), 8);
      XorCancels(a, Wide(m[0]));
      XorCancels(b, Wide(m[0]));
    }
  }

  /** Up to four bytes as one word, the first in the low byte. */
  function Pack(m: octets): word
    decreases |m|
  {
    if m == [] then 0 else Push(Wide(m[0]), Pack(m[1..]))
  }

  function Push(low: word, rest: word): word {
    Xor(low, Raised(rest))
  }

  /** At most k bytes of the word are used. */
  predicate Fits(w: word, k: nat)
    decreases k
  {
    if k == 0 then w == 0 else Fits(High(w), k - 1)
  }

  function Raised(rest: word): word {
    rest << 8
  }

  lemma RaisedParts(rest: word)
    requires rest & 0xFF000000 == 0
    ensures Low(Raised(rest)) == 0 && High(Raised(rest)) == rest
  {
    assert (rest << 8) & 0xFF == 0;
    assert (rest << 8) >> 8 == rest & 0x00FFFFFF;
  }

  lemma LowOfXor(a: word, b: word)
    ensures Low(Xor(a, b)) == Xor(Low(a), Low(b)) && High(Xor(a, b)) == Xor(High(a), High(b))
  {
    assert (a ^ b) & 0xFF == (a & 0xFF) ^ (b & 0xFF);
    assert (a ^ b) >> 8 == (a >> 8) ^ (b >> 8);
  }

  lemma PushParts(b: octet, rest: word)
    requires rest & 0xFF000000 == 0
    ensures Low(Push(Wide(b), rest)) == Wide(b) && High(Push(Wide(b), rest)) == rest
  {
    hide Low, High, Xor, Wide, Raised;
    RaisedParts(rest);
    LowOfXor(Wide(b), Raised(rest));
    OctetIsSmall(b);
    XorCancels(Wide(b), 0);
    XorCancels(rest, 0);
  }

  lemma FitsThree(w: word)
    requires Fits(w, 3)
    ensures w & 0xFF000000 == 0
  {
    assert Fits(High(w), 2) && Fits(High(High(w)), 1) && Fits(High(High(High(w))), 0);
    assert ((w >> 8) >> 8) >> 8 == w >> 24;
    assert w >> 24 == 0;
  }

  lemma {:induction false} FitsMore(w: word, k: nat, j: nat)
    requires Fits(w, k) && k <= j
    ensures Fits(w, j)
    decreases j
  {
    hide High;
    if j > 0 {
      if k == 0 {
        ZeroHigh();
        FitsMore(0, 0, j - 1);
      } else {
        FitsMore(High(w), k - 1, j - 1);
      }
    }
  }

  lemma ZeroHigh()
    ensures High(0) == 0
  {
  }

  lemma {:induction false} PackFits(m: octets)
    requires |m| <= 4
    ensures Fits(Pack(m), |m|)
    ensures m != [] ==> Pack(m[1..]) & 0xFF000000 == 0
    decreases |m|
  {
    hide High, Wide, Low, Push;
    if m != [] {
      PackFits(m[1..]);
      FitsMore(Pack(m[1..]), |m| - 1, 3);
      FitsThree(Pack(m[1..]));
      PushParts(m[0], Pack(m[1..]));
    }
  }

  lemma WideInjective(a: octet, b: octet)
    requires Wide(a) == Wide(b)
    ensures a == b
  {
    assert (a as word) as octet == a && (b as word) as octet == b;
  }

  lemma {:induction false} PackInjective(x: octets, y: octets)
    requires |x| == |y| <= 4 && Pack(x) == Pack(y)
    ensures x == y
    decreases |x|
  {
    hide High, Wide, Low, Push;
    if x != [] {
      PackFits(x);
      PackFits(y);
      PushParts(x[0], Pack(x[1..]));
      PushParts(y[0], Pack(y[1..]));
      WideInjective(x[0], y[0]);
      PackInjective(x[1..], y[1..]);
    }
  }

  /** A byte can be put in eight steps early. */
  lemma EarlyWord(c: word, rest: word)
    requires rest & 0xFF000000 == 0
    ensures Xor(Shifts(c, 8), rest) == Shifts(Xor(c, Raised(rest)), 8)
  {
    hide Shifts, Xor, High, Low, Raised;
    RaisedParts(rest);
    TableStep(Raised(rest));
    ShiftsLinear(c, Raised(rest), 8);
    ZeroShifts(8);
    XorCancels(rest, 0);
  }

  lemma {:induction false} ZeroShifts(k: nat)
    ensures Shifts(0, k) == 0
    decreases k
  {
    if k > 0 {
      ZeroShifts(k - 1);
    }
  }

  /** Up to four bytes go in as one word. */
  lemma {:induction false} WordAtOnce(c: word, m: octets)
    requires |m| <= 4
    ensures TakeOctets(c, m) == Shifts(Xor(c, Pack(m)), 8 * |m|)
    decreases |m|
  {
    hide Shift, Xor, Wide, Raised;
    if m == [] {
      XorCancels(c, 0);
    } else {
      var b, rest := Wide(m[0]), Pack(m[1..]);
      PackFits(m);
      WordAtOnce(TakeOctet(c, m[0]), m[1..]);
      EarlyWord(Xor(c, b), rest);
      XorAssociates(c, b, Raised(rest));
      ShiftsAdd(Xor(c, Pack(m)), 8, 8 * |m[1..]|);
    }
  }

  /** A change confined to four neighbouring bytes always shows in the checksum. */
  lemma BurstDetected(before: octets, x: octets, y: octets, after: octets)
    requires |x| == |y| <= 4
    ensures Crc(before + x + after) == Crc(before + y + after) <==> x == y
  {
    hide Shifts, Xor, Wide, Pack, Crc;
    if Crc(before + x + after) == Crc(before + y + after) {
      var c := TakeOctets(ONES, before);
      var cx, cy := TakeOctets(c, x), TakeOctets(c, y);
      InPieces(before, x, after);
      InPieces(before, y, after);
      XorCancels(TakeOctets(cx, after), ONES);
      XorCancels(TakeOctets(cy, after), ONES);
      OctetsInjective(cx, cy, after);
      WordAtOnce(c, x);
      WordAtOnce(c, y);
      ShiftsInjective(Xor(c, Pack(x)), Xor(c, Pack(y)), 8 * |x|);
      XorCancels(Pack(x), c);
      XorCancels(Pack(y), c);
      XorCommutes(c, Pack(x));
      XorCommutes(c, Pack(y));
      PackInjective(x, y);
    }
  }

  lemma InPieces(before: octets, x: octets, after: octets)
    ensures Crc(before + x + after) == Xor(TakeOctets(TakeOctets(TakeOctets(ONES, before), x), after), ONES)
  {
    hide TakeOctet, Xor, Crc;
    ByOctets(before + x + after);
    TakeOctetsAppend(ONES, before + x, after);
    TakeOctetsAppend(ONES, before, x);
  }

  // A known value.

  lemma StepsToEight(a: word, b: word, c: word, d: word, e: word, f: word, g: word, h: word, i: word)
    requires Shift(a) == b && Shift(b) == c && Shift(c) == d && Shift(d) == e
    requires Shift(e) == f && Shift(f) == g && Shift(g) == h && Shift(h) == i
    ensures Shifts(a, 8) == i
  {
    hide Shift;
    assert Shifts(h, 1) == i && Shifts(g, 2) == i && Shifts(f, 3) == i && Shifts(e, 4) == i;
    assert Shifts(d, 5) == i && Shifts(c, 6) == i && Shifts(b, 7) == i;
  }

  lemma FirstOctet()
    ensures TakeOctet(0xFFFFFFFF, 0x49) == 0x22FDE946
  {
    assert Xor(0xFFFFFFFF, Wide(0x49)) == 0xFFFFFFB6;
    StepsToEight(0xFFFFFFB6, 0x7FFFFFDB, 0xD2477CCD, 0x849B3D46, 0x424D9EA3,
                 0xCC9E4C71, 0x8BF7A518, 0x45FBD28C, 0x22FDE946);
  }

  lemma SecondOctet()
    ensures TakeOctet(0x22FDE946, 0x45) == 0x992BAC53
  {
    assert Xor(0x22FDE946, Wide(0x45)) == 0x22FDE903;
    StepsToEight(0x22FDE903, 0xFCC677A1, 0x93DBB8F0, 0x49EDDC78, 0x24F6EE3C,
                 0x127B771E, 0x093DBB8F, 0xE9265EE7, 0x992BAC53);
  }

  lemma ThirdOctet()
    ensures TakeOctet(0x992BAC53, 0x4E) == 0x639F4775
  {
    assert Xor(0x992BAC53, Wide(0x4E)) == 0x992BAC1D;
    StepsToEight(0x992BAC1D, 0xA12D552E, 0x5096AA97, 0xC5F3D66B, 0x8F416815,
                 0xAA18372A, 0x550C1B95, 0xC73E8EEA, 0x639F4775);
  }

  lemma FourthOctet()
    ensures TakeOctet(0x639F4775, 0x44) == 0x51BD9F7D
  {
    assert Xor(0x639F4775, Wide(0x44)) == 0x639F4731;
    StepsToEight(0x639F4731, 0xDC7720B8, 0x6E3B905C, 0x371DC82E, 0x1B8EE417,
                 0xE07FF12B, 0x9D877BB5, 0xA37B3EFA, 0x51BD9F7D);
  }

  /** The checksum of the chunk that ends every PNG file. */
  lemma CrcOfEnd()
    ensures Crc([0x49, 0x45, 0x4E, 0x44]) == 0xAE426082
  {
    hide TakeOctet;
    var m: octets := [0x49, 0x45, 0x4E, 0x44];
    ByOctets(m);
    FirstOctet();
    SecondOctet();
    ThirdOctet();
    FourthOctet();
    assert m[1..] == [0x45, 0x4E, 0x44] && m[1..][1..] == [0x4E, 0x44];
    assert m[1..][1..][1..] == [0x44] && m[1..][1..][1..][1..] == [];
    assert Xor(0x51BD9F7D, ONES) == 0xAE426082;
  }
}
