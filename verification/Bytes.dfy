/** Bytes, byte strings and the few shared containers of the model. */
module Bytes {

  type byte = x: int | 0 <= x < 256
  type bytes = seq<byte>

  datatype Option<+T> = None | Some(value: T)

  function Max(a: int, b: int): int {
    if a < b then b else a
  }

  function Min(a: int, b: int): int {
    if a < b then a else b
  }

  /** The low sixteen bits of n, most significant byte first. */
  function Be16(n: nat): (b: bytes)
    ensures |b| == 2
  {
    [n / 256 % 256, n % 256]
  }

  function FromBe16(b: bytes): (n: nat)
    requires |b| == 2
    ensures n < 65536
  {
    256 * (b[0] as int) + b[1]
  }

  lemma Be16RoundTrip(n: nat, b: bytes)
    ensures n < 65536 ==> FromBe16(Be16(n)) == n
    ensures |b| == 2 ==> Be16(FromBe16(b)) == b
  {
  }

  /** The low 32 bits of v, most significant byte first. */
  function Be32(v: int): (b: bytes)
    ensures |b| == 4
  {
    var w := v % 0x1_0000_0000;
    [w / 0x100_0000, w / 0x1_0000 % 256, w / 0x100 % 256, w % 256]
  }

  function FromBe32(b: bytes): (n: nat)
    requires |b| == 4
    ensures n < 0x1_0000_0000
  {
    0x100_0000 * (b[0] as int) + 0x1_0000 * (b[1] as int) + 0x100 * (b[2] as int) + b[3]
  }

  lemma Be32RoundTrip(v: int)
    ensures FromBe32(Be32(v)) == v % 0x1_0000_0000
  {
    var w := v % 0x1_0000_0000;
    assert w / 0x1_0000 == 256 * (w / 0x100_0000) + w / 0x1_0000 % 256 by {
      assert w / 0x1_0000 / 256 == w / 0x100_0000;
    }
    assert w / 0x100 == 256 * (w / 0x1_0000) + w / 0x100 % 256 by {
      assert w / 0x100 / 256 == w / 0x1_0000;
    }
  }

  function Flatten(parts: seq<bytes>): bytes {
    if parts == [] then [] else parts[0] + Flatten(parts[1..])
  }

  lemma {:induction false} FlattenAppend(a: seq<bytes>, b: seq<bytes>)
    ensures Flatten(a + b) == Flatten(a) + Flatten(b)
  {
    if a == [] {
      assert a + b == b;
    } else {
      assert (a + b)[1..] == a[1..] + b;
      FlattenAppend(a[1..], b);
    }
  }

  lemma FlattenSnoc(a: seq<bytes>, p: bytes)
    ensures Flatten(a + [p]) == Flatten(a) + p
  {
    FlattenAppend(a, [p]);
    assert Flatten([p]) == p;
  }

  /** Concatenating a prefix of the parts gives a prefix of the whole. */
  lemma FlattenPrefix(a: seq<bytes>, b: seq<bytes>)
    requires a <= b
    ensures Flatten(a) <= Flatten(b)
  {
    FlattenAppend(a, b[|a|..]);
    assert a + b[|a|..] == b;
  }
}
