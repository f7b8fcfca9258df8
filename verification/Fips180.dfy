/**
  SHA-1 as FIPS 180-4 defines it: padding (section 5.1.1), parsing (5.2.1), the initial value
  (5.3.1), the functions and constants (4.1.1, 4.2.1) and the computation (6.1.2).
 */
module Fips180 {
  import opened Wrappers

  type word = bv32

  datatype Hash = Hash(a: word, b: word, c: word, d: word, e: word)

  const H0 := Hash(0x67452301, 0xefcdab89, 0x98badcfe, 0x10325476, 0xc3d2e1f0)

  const TWO_TO_THE_32: nat := 0x1_0000_0000
  const TWO_TO_THE_64: nat := 0x1_0000_0000_0000_0000

  /** Addition modulo 2^32. */
  function Add(x: word, y: word): word { x + y }

  function Mix(x: word, y: word, z: word, u: word): word { x ^ y ^ z ^ u }

  function Rotl1(x: word): word { (x << 1) | (x >> 31) }
  function Rotl5(x: word): word { (x << 5) | (x >> 27) }
  function Rotl30(x: word): word { (x << 30) | (x >> 2) }

  function Ch(x: word, y: word, z: word): word { (x & y) ^ (!x & z) }
  function Parity(x: word, y: word, z: word): word { x ^ y ^ z }
  function Maj(x: word, y: word, z: word): word { (x & y) ^ (x & z) ^ (y & z) }

  function F(t: nat, x: word, y: word, z: word): word
  {
    if t < 20 then Ch(x, y, z) else if t < 40 then Parity(x, y, z) else if t < 60 then Maj(x, y, z) else Parity(x, y, z)
  }

  function K(t: nat): word
  {
    if t < 20 then 0x5a827999 else if t < 40 then 0x6ed9eba1 else if t < 60 then 0x8f1bbcdc else 0xca62c1d6
  }

  /** Four bytes read as a word, the first byte leftmost. */
  function WordOf(b0: byte, b1: byte, b2: byte, b3: byte): word
  {
    ((b0 as word) << 24) | ((b1 as word) << 16) | ((b2 as word) << 8) | (b3 as word)
  }

  function BytesOf(x: word): (bytes: seq<byte>)
    ensures |bytes| == 4
  {
    [((x >> 24) & 0xff) as byte, ((x >> 16) & 0xff) as byte, ((x >> 8) & 0xff) as byte, (x & 0xff) as byte]
  }

  /** The message schedule of a 64-byte block. */
  function W(block: seq<byte>, t: nat): word
    requires |block| == 64
  {
    if t < 16 then WordOf(block[4 * t], block[4 * t + 1], block[4 * t + 2], block[4 * t + 3])
    else Rotl1(Mix(W(block, t - 3), W(block, t - 8), W(block, t - 14), W(block, t - 16)))
  }

  /** The sum that becomes the new leading word. */
  function NewWord(r: word, f: word, e: word, k: word, w: word): word { r + f + e + k + w }

  function Round(v: Hash, t: nat, w: word): Hash
  {
    Hash(NewWord(Rotl5(v.a), F(t, v.b, v.c, v.d), v.e, K(t), w), v.a, Rotl30(v.b), v.c, v.d)
  }

  function Rounds(v: Hash, block: seq<byte>, n: nat): Hash
    requires |block| == 64
  {
    if n == 0 then v else Round(Rounds(v, block, n - 1), n - 1, W(block, n - 1))
  }

  function Compress(h: Hash, block: seq<byte>): Hash
    requires |block| == 64
  {
    var v := Rounds(h, block, 80);
    Hash(Add(h.a, v.a), Add(h.b, v.b), Add(h.c, v.c), Add(h.d, v.d), Add(h.e, v.e))
  }

  /** The hash value after all 64-byte blocks of `blocks`. */
  function CompressAll(blocks: seq<byte>): Hash
    requires |blocks| % 64 == 0
    decreases |blocks|
  {
    if blocks == [] then H0
    else Compress(CompressAll(blocks[..|blocks| - 64]), blocks[|blocks| - 64..])
  }

  function Zeros(n: nat): (s: seq<byte>)
    ensures |s| == n && forall i :: 0 <= i < n ==> s[i] == 0
  {
    seq(n, _ => 0)
  }

  /** The 64-bit length field, most significant word first. */
  function LengthField(bits: nat): (field: seq<byte>)
    requires bits < TWO_TO_THE_64
    ensures |field| == 8
  {
    BytesOf((bits / TWO_TO_THE_32) as word) + BytesOf((bits % TWO_TO_THE_32) as word)
  }

  /** The least number of zero bytes that makes the length come out. */
  function PadZeros(length: nat): (k: nat)
    ensures k < 64 && (length + 1 + k + 8) % 64 == 0
  {
    (119 - length % 64) % 64
  }

  function Pad(message: seq<byte>): (padded: seq<byte>)
    requires 8 * |message| < TWO_TO_THE_64
    ensures |padded| % 64 == 0
  {
    message + [0x80] + Zeros(PadZeros(|message|)) + LengthField(8 * |message|)
  }

  function BytesOfHash(h: Hash): seq<byte>
  {
    BytesOf(h.a) + BytesOf(h.b) + BytesOf(h.c) + BytesOf(h.d) + BytesOf(h.e)
  }

  function Digest(message: seq<byte>): seq<byte>
    requires 8 * |message| < TWO_TO_THE_64
  {
    BytesOfHash(CompressAll(Pad(message)))
  }
}
