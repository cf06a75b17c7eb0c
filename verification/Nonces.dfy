/** The twelve-byte frame nonce and its two increments, one per language. */
module Nonces {
  import opened Bytes

  type Nonce = n: bytes | |n| == 12 witness [0, 0, 0, 0, 0, 0, 0, 0, 0, 0, 0, 0]

  const TWO32 := 0x1_0000_0000
  const TWO64 := 0x1_0000_0000_0000_0000

  function Pow256(n: nat): nat {
    if n == 0 then 1 else 256 * Pow256(n - 1)
  }

  /** Little-endian value of a byte string. */
  function Le(b: bytes): nat {
    if b == [] then 0 else b[0] + 256 * Le(b[1..])
  }

  function ToLe(v: nat, n: nat): (b: bytes)
    ensures |b| == n
  {
    if n == 0 then [] else [v % 256] + ToLe(v / 256, n - 1)
  }

  lemma {:induction false} LeOfToLe(v: nat, n: nat)
    requires v < Pow256(n)
    ensures Le(ToLe(v, n)) == v
  {
    if n > 0 {
      LeOfToLe(v / 256, n - 1);
      assert ToLe(v, n)[1..] == ToLe(v / 256, n - 1);
    }
  }

  lemma {:induction false} ToLeOfLe(b: bytes)
    ensures Le(b) < Pow256(|b|)
    ensures ToLe(Le(b), |b|) == b
  {
    if b != [] {
      ToLeOfLe(b[1..]);
    }
  }

  lemma Pow256Values()
    ensures Pow256(4) == TWO32 && Pow256(8) == TWO64
  {
    assert Pow256(2) == 65536;
    assert Pow256(3) == 0x100_0000;
    assert Pow256(5) == 0x100_0000_0000;
    assert Pow256(6) == 0x1_0000_0000_0000;
    assert Pow256(7) == 0x100_0000_0000_0000;
  }

  /** Four bytes joined by shifts and ors: the bits do not overlap, so the or is a sum. */
  function Word(b0: int, b1: int, b2: int, b3: int): int {
    b0 + 0x100 * b1 + 0x1_0000 * b2 + 0x100_0000 * b3
  }

  lemma LeUnrolled(b: bytes)
    requires |b| == 4
    ensures Le(b) == Word(b[0], b[1], b[2], b[3])
  {
    assert b[1..][1..] == b[2..] && b[2..][1..] == b[3..] && b[3..][1..] == [];
    assert Le(b[3..]) == b[3];
    assert Le(b[2..]) == b[2] + 256 * Le(b[3..]);
    assert Le(b[1..]) == b[1] + 256 * Le(b[2..]);
  }

  lemma ToLeUnrolled(v: nat)
    requires v < TWO32
    ensures ToLe(v, 4) == [v % 256, v / 0x100 % 256, v / 0x1_0000 % 256, v / 0x100_0000 % 256]
  {
    assert v / 256 / 256 == v / 0x1_0000;
    assert v / 0x1_0000 / 256 == v / 0x100_0000;
    assert ToLe(v / 0x100_0000, 1) == [v / 0x100_0000 % 256];
    assert ToLe(v / 0x1_0000, 2) == [v / 0x1_0000 % 256] + ToLe(v / 0x100_0000, 1);
    assert ToLe(v / 0x100, 3) == [v / 0x100 % 256] + ToLe(v / 0x1_0000, 2);
  }

  lemma LeHalves(b: bytes)
    requires |b| == 8
    ensures Le(b) == Le(b[..4]) + TWO32 * Le(b[4..])
  {
    LeUnrolled(b[..4]);
    assert b[1..][1..] == b[2..] && b[2..][1..] == b[3..] && b[3..][1..] == b[4..];
    assert Le(b[3..]) == b[3] + 256 * Le(b[4..]);
    assert Le(b[2..]) == b[2] + 256 * Le(b[3..]);
    assert Le(b[1..]) == b[1] + 256 * Le(b[2..]);
  }

  /** Add one to a little-endian number, carrying from byte to byte and dropping the last carry. */
  function IncrementWord(b: bytes): (r: bytes)
    ensures |r| == |b|
  {
    if b == [] then [] else if b[0] < 255 then [b[0] + 1] + b[1..] else [0] + IncrementWord(b[1..])
  }

  /** One increment: the first eight bytes are a little-endian 64-bit counter. */
  function Next(n: Nonce): Nonce {
    IncrementWord(n[..8]) + n[8..]
  }

  function Bump(n: Nonce, k: nat): Nonce {
    if k == 0 then n else Next(Bump(n, k - 1))
  }

  /** The counter after one increment, without the modulus. */
  function Succ(v: nat, limit: nat): nat {
    if v + 1 == limit then 0 else v + 1
  }

  lemma SuccIsMod(v: nat, limit: nat)
    requires v < limit
    ensures Succ(v, limit) == (v + 1) % limit
  {
    if v + 1 == limit {
      DivModUnique(v + 1, limit, 1, 0);
    } else {
      DivModUnique(v + 1, limit, 0, v + 1);
    }
  }

  lemma {:induction false} IncrementAddsOne(b: bytes)
    ensures Le(b) < Pow256(|b|)
    ensures Le(IncrementWord(b)) == Succ(Le(b), Pow256(|b|))
  {
    ToLeOfLe(b);
    if b != [] {
      ToLeOfLe(b[1..]);
      IncrementAddsOne(b[1..]);
      assert IncrementWord(b)[1..] == if b[0] < 255 then b[1..] else IncrementWord(b[1..]);
    }
  }

  lemma NextAddsOne(n: Nonce)
    ensures Le(n[..8]) < TWO64
    ensures Le(Next(n)[..8]) == Succ(Le(n[..8]), TWO64)
    ensures Next(n)[8..] == n[8..]
  {
    Pow256Values();
    IncrementAddsOne(n[..8]);
    assert Next(n)[..8] == IncrementWord(n[..8]);
  }

  lemma ModSucc(x: nat, m: nat)
    requires m > 0
    ensures (x % m + 1) % m == (x + 1) % m
  {
    var q, r := x / m, x % m;
    assert x == q * m + r;
    if r + 1 == m {
      assert x + 1 == (q + 1) * m;
      DivModUnique(x + 1, m, q + 1, 0);
      DivModUnique(r + 1, m, 1, 0);
    } else {
      DivModUnique(x + 1, m, q, r + 1);
      DivModUnique(r + 1, m, 0, r + 1);
    }
  }

  lemma MulSign(k: int, m: nat)
    ensures k >= 1 ==> k * m >= m
    ensures k <= -1 ==> k * m + m <= 0
  {
    if k >= 1 {
      assert k * m == (k - 1) * m + m;
    } else if k <= -1 {
      assert k * m == (k + 1) * m - m;
    }
  }

  lemma DivModUnique(x: nat, m: nat, q: int, r: nat)
    requires x == q * m + r && r < m
    ensures x / m == q && x % m == r
  {
    var q1, r1 := x / m, x % m;
    assert x == q1 * m + r1;
    assert (q1 - q) * m == r - r1;
    MulSign(q1 - q, m);
  }

  lemma {:induction false} BumpAdd(n: Nonce, i: nat, j: nat)
    ensures Bump(Bump(n, i), j) == Bump(n, i + j)
  {
    if j > 0 {
      BumpAdd(n, i, j - 1);
    }
  }

  /** k increments add k modulo 2^64 and never touch the last four bytes. */
  lemma {:induction false} BumpAddsK(n: Nonce, k: nat)
    ensures Le(Bump(n, k)[..8]) == (Le(n[..8]) + k) % TWO64
    ensures Bump(n, k)[8..] == n[8..]
  {
    Pow256Values();
    if k == 0 {
      ToLeOfLe(n[..8]);
    } else {
      BumpAddsK(n, k - 1);
      NextAddsOne(Bump(n, k - 1));
      SuccIsMod(Le(Bump(n, k - 1)[..8]), TWO64);
      ModSucc(Le(n[..8]) + k - 1, TWO64);
    }
  }

  lemma SameResidue(x: nat, y: nat, m: nat)
    requires x <= y && m > 0
    ensures x % m == y % m <==> (y - x) % m == 0
  {
    var q, r, q1, r1 := x / m, x % m, y / m, y % m;
    assert x == q * m + r && y == q1 * m + r1;
    if r <= r1 {
      assert y - x == (q1 - q) * m + (r1 - r);
      DivModUnique(y - x, m, q1 - q, r1 - r);
    } else {
      assert y - x == (q1 - q - 1) * m + (m + r1 - r);
      DivModUnique(y - x, m, q1 - q - 1, m + r1 - r);
    }
  }

  /** A nonce is determined by its counter and its fixed tail. */
  lemma SameNonce(a: Nonce, b: Nonce)
    ensures a == b <==> Le(a[..8]) == Le(b[..8]) && a[8..] == b[8..]
  {
    if Le(a[..8]) == Le(b[..8]) && a[8..] == b[8..] {
      LeInjective(a[..8], b[..8]);
      assert a == a[..8] + a[8..] && b == b[..8] + b[8..];
    }
  }

  /** Fewer than 2^64 increments never repeat a nonce; exactly 2^64 return to the start. */
  lemma BumpDistinct(n: Nonce, i: nat, j: nat)
    requires i < j
    ensures Bump(n, i) == Bump(n, j) <==> (j - i) % TWO64 == 0
  {
    BumpAddsK(n, i);
    BumpAddsK(n, j);
    SameResidue(Le(n[..8]) + i, Le(n[..8]) + j, TWO64);
    SameNonce(Bump(n, i), Bump(n, j));
  }

  /** The Go increment: one 64-bit word, and nothing at all on a slice shorter than eight. */
  method GoNextNonce(nonce: array<byte>)
    modifies nonce
    ensures nonce.Length < 8 ==> nonce[..] == old(nonce[..])
    ensures nonce.Length == 12 ==> nonce[..] == Next(old(nonce[..]))
    ensures nonce.Length >= 8 ==> nonce[8..] == old(nonce[8..])
  {
    if nonce.Length < 8 {
      return;
    }
    var v := Le(nonce[..8]);
    var w := ToLe((v + 1) % TWO64, 8);
    WordOfSum(nonce[..8]);
    forall i | 0 <= i < 8 {
      nonce[i] := w[i];
    }
    assert nonce[..8] == w;
    assert nonce[..] == nonce[..8] + nonce[8..];
  }

  /** Writing the 64-bit sum back is the byte-wise increment. */
  lemma WordOfSum(b: bytes)
    requires |b| == 8
    ensures ToLe((Le(b) + 1) % TWO64, 8) == IncrementWord(b)
  {
    Pow256Values();
    IncrementAddsOne(b);
    SuccIsMod(Le(b), TWO64);
    LeOfToLe((Le(b) + 1) % TWO64, 8);
    SuccIsIncrement(b, ToLe((Le(b) + 1) % TWO64, 8));
  }

  method PutWord(a: array<byte>, at: nat, v: nat)
    requires at + 4 <= a.Length && v < TWO32
    modifies a
    ensures a[..at] == old(a[..at]) && a[at..at + 4] == ToLe(v, 4)
    ensures a[at + 4..] == old(a[at + 4..])
  {
    a[at], a[at + 1] := v % 256, v / 0x100 % 256;
    a[at + 2], a[at + 3] := v / 0x1_0000 % 256, v / 0x100_0000 % 256;
    ToLeUnrolled(v);
  }

  lemma WordRoundTrip(v: nat)
    requires v < TWO32
    ensures Le(ToLe(v, 4)) == v
  {
    Pow256Values();
    LeOfToLe(v, 4);
  }

  lemma WordBound(b: bytes)
    requires |b| == 4
    ensures Le(b) < TWO32
  {
    Pow256Values();
    ToLeOfLe(b);
  }

  /** Two 32-bit halves with a carry are the 64-bit increment. */
  lemma HalvesAreNext(was: Nonce, now: Nonce, newLow: nat, newHigh: nat)
    requires newLow == Succ(Le(was[..4]), TWO32)
    requires newHigh == if newLow == 0 then Succ(Le(was[4..8]), TWO32) else Le(was[4..8])
    requires now[..4] == ToLe(newLow, 4) && now[4..8] == ToLe(newHigh, 4) && now[8..] == was[8..]
    ensures now == Next(was)
  {
    WordBound(was[..4]);
    WordBound(was[4..8]);
    WordRoundTrip(newLow);
    WordRoundTrip(newHigh);
    HalvesAdd(was[..4], was[4..8], newLow, newHigh, was[..8], now[..8]) by {
      assert was[..8][..4] == was[..4] && was[..8][4..] == was[4..8];
      assert now[..8][..4] == now[..4] && now[..8][4..] == now[4..8];
    }
    SuccIsIncrement(was[..8], now[..8]);
    assert now == now[..8] + now[8..];
  }

  lemma LeInjective(a: bytes, b: bytes)
    requires |a| == |b| && Le(a) == Le(b)
    ensures a == b
  {
    ToLeOfLe(a);
    ToLeOfLe(b);
  }

  lemma SuccIsIncrement(was: bytes, now: bytes)
    requires |was| == 8 && |now| == 8 && Le(now) == Succ(Le(was), TWO64)
    ensures now == IncrementWord(was)
  {
    Pow256Values();
    IncrementAddsOne(was);
    LeInjective(now, IncrementWord(was));
  }

  lemma HalvesAdd(low: bytes, high: bytes, newLow: nat, newHigh: nat, was: bytes, now: bytes)
    requires |was| == 8 && |now| == 8 && was[..4] == low && was[4..] == high
    requires newLow == Succ(Le(low), TWO32)
    requires newHigh == if newLow == 0 then Succ(Le(high), TWO32) else Le(high)
    requires Le(now[..4]) == newLow && Le(now[4..]) == newHigh
    ensures Le(was) < TWO64 && Le(now) == Succ(Le(was), TWO64)
  {
    LeHalves(was);
    LeHalves(now);
    WordBound(low);
    WordBound(high);
  }

  /** One 32-bit word of the nonce, plus one, truncated to 32 bits. */
  method WordPlusOne(a: array<byte>, at: nat) returns (v: nat)
    requires at + 4 <= a.Length
    ensures v < TWO32 && v == Succ(Le(a[at..at + 4]), TWO32)
  {
    v := (Word(a[at], a[at + 1], a[at + 2], a[at + 3]) + 1) % TWO32;
    LeUnrolled(a[at..at + 4]);
    WordBound(a[at..at + 4]);
    SuccIsMod(Le(a[at..at + 4]), TWO32);
  }

  /** The JavaScript increment: two 32-bit halves, the carry taken when the low half wraps. */
  method JsNextNonce(nonce12: array<byte>)
    requires nonce12.Length == 12
    modifies nonce12
    ensures nonce12[..] == Next(old(nonce12[..]))
  {
    ghost var was := nonce12[..];
    var newLow := WordPlusOne(nonce12, 0);
    PutWord(nonce12, 0, newLow);
    assert nonce12[4..8] == nonce12[4..][..4] == was[4..][..4] == was[4..8];
    assert nonce12[8..] == nonce12[4..][4..] == was[8..];
    if newLow == 0 {
      var newHigh := WordPlusOne(nonce12, 4);
      PutWord(nonce12, 4, newHigh);
      HalvesAreNext(was, nonce12[..], newLow, newHigh);
    } else {
      ToLeOfLe(was[4..8]);
      HalvesAreNext(was, nonce12[..], newLow, Le(was[4..8]));
    }
  }
}
