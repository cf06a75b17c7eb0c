/** AES-256-GCM, HKDF and SHA-256 as parameters of the model. */
module Aead {
  import opened Bytes
  import opened Nonces

  const TAG := 16

  /** One keyed cipher: both languages call it with a nonce and no associated data. */
  datatype Cipher = Cipher(seal: (Nonce, bytes) -> bytes, open: (Nonce, bytes) -> Option<bytes>)

  /** The three laws of AES-GCM under one key that the protocol rests on. The last one
      holds because the plaintext and the tag determine the ciphertext. */
  ghost predicate Gcm(c: Cipher) {
    && (forall n: Nonce, p: bytes :: |c.seal(n, p)| == |p| + TAG)
    && (forall n: Nonce, p: bytes :: c.open(n, c.seal(n, p)) == Some(p))
    && (forall n: Nonce, x: bytes :: c.open(n, x).Some? ==> x == c.seal(n, c.open(n, x).value))
  }

  /** Hashing and key derivation: any functions with the right output lengths. */
  datatype Crypto = Crypto(
    sha256: bytes -> bytes,
    hkdf: (bytes, Nonce) -> bytes,
    gcm: bytes -> Cipher)

  ghost predicate Sound(k: Crypto) {
    && (forall x: bytes :: |k.sha256(x)| == 32)
    && (forall key: bytes :: Gcm(k.gcm(key)))
  }

  lemma SealInjective(c: Cipher, n: Nonce, p: bytes, q: bytes)
    requires Gcm(c) && c.seal(n, p) == c.seal(n, q)
    ensures p == q
  {
    assert c.open(n, c.seal(n, p)) == Some(p);
    assert c.open(n, c.seal(n, q)) == Some(q);
  }

  // A concrete cipher that satisfies the laws, so that nothing below is vacuous. Its tag
  // repeats the last nonce byte and the first one, which tells nonces of one run apart.

  function ToyTag(n: Nonce): bytes {
    seq(TAG, i => if i % 2 == 0 then n[0] else n[11])
  }

  function ToySeal(n: Nonce, p: bytes): bytes {
    p + ToyTag(n)
  }

  function ToyOpen(n: Nonce, x: bytes): Option<bytes> {
    if |x| >= TAG && x[|x| - TAG..] == ToyTag(n) then Some(x[..|x| - TAG]) else None
  }

  const TOY: Cipher := Cipher(ToySeal, ToyOpen)

  lemma ToyIsGcm()
    ensures Gcm(TOY)
  {
    forall n: Nonce, p: bytes
      ensures TOY.open(n, TOY.seal(n, p)) == Some(p)
    {
      var x := ToySeal(n, p);
      assert x[|x| - TAG..] == ToyTag(n) && x[..|x| - TAG] == p;
    }
    forall n: Nonce, x: bytes | TOY.open(n, x).Some?
      ensures x == TOY.seal(n, TOY.open(n, x).value)
    {
      assert x == x[..|x| - TAG] + x[|x| - TAG..];
    }
  }
}
