/**
 * HMAC-SHA256 as defined in section 2 of RFC 2104, built on a SHA-256 that
 * is not itself modelled: every member that hashes takes it as a parameter.
 */
module Hmac {
  import opened GoBase

  /** A SHA-256 digest: 32 bytes. */
  type Digest = s: seq<byte> | |s| == 32 witness seq(32, _ => 0)

  /** SHA-256 (FIPS 180-4) as an opaque function of its input. */
  type Sha256 = seq<byte> -> Digest

  /** SHA-256's block size B, in bytes. */
  const BlockSize: nat := 64

  const InnerPad: byte := 0x36
  const OuterPad: byte := 0x5c

  /**
   * The key K as RFC 2104 uses it: a key longer than B is replaced by its
   * hash, and the result is filled up with zero bytes to B bytes.
   */
  function BlockKey(h: Sha256, key: seq<byte>): (k: seq<byte>)
    ensures |k| == BlockSize
    ensures |key| <= BlockSize ==> k[..|key|] == key
    ensures |key| > BlockSize ==> k[..32] == h(key)
    ensures forall i :: (if |key| <= BlockSize then |key| else 32) <= i < BlockSize ==> k[i] == 0
  {
    var short := if |key| > BlockSize then h(key) else key;
    short + seq(BlockSize - |short|, _ => 0)
  }

  function Xor(k: seq<byte>, pad: byte): (r: seq<byte>)
    ensures |r| == |k|
    ensures forall i :: 0 <= i < |k| ==> r[i] == k[i] ^ pad
  {
    seq(|k|, i requires 0 <= i < |k| => k[i] ^ pad)
  }

  /** H(K XOR opad, H(K XOR ipad, text)). */
  function HmacSha256(h: Sha256, key: seq<byte>, message: seq<byte>): Digest
  {
    var k := BlockKey(h, key);
    h(Xor(k, OuterPad) + h(Xor(k, InnerPad) + message))
  }

  /**
   * Keys are padded with zero bytes, so a short key and the same key with a
   * zero byte appended produce the same MAC for every message.
   */
  lemma ZeroPaddedKeysCollide(h: Sha256, key: seq<byte>, message: seq<byte>)
    requires |key| < BlockSize
    ensures HmacSha256(h, key, message) == HmacSha256(h, key + [0], message)
  {
    var k, k' := BlockKey(h, key), BlockKey(h, key + [0]);
    assert (key + [0])[..|key|] == key;
    forall i | 0 <= i < BlockSize
      ensures k[i] == k'[i]
    {
      if i < |key| {
        assert k[i] == k[..|key|][i] && k'[i] == k'[..|key| + 1][i];
      }
    }
    assert k == k';
  }
}
