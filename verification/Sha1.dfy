/**
  sha.c: the streaming implementation, with its four-pointer schedule walk, its rewritten boolean
  functions, its two ways of copying input, its six unrollings and its three treatments of byte
  order, each proved against FIPS 180-4.
 */
module Sha1 {
  import opened Wrappers
  import opened Fips180

  // ------------------------------------------------------- words in memory

  /** The value of four bytes in memory read through a `uint32_t` pointer. */
  function Load(littleEndian: bool, b0: byte, b1: byte, b2: byte, b3: byte): word
  {
    if littleEndian then WordOf(b3, b2, b1, b0) else WordOf(b0, b1, b2, b3)
  }

  /** The bytes in memory after a store through a `uint32_t` pointer. */
  function Store(littleEndian: bool, x: word): (bytes: seq<byte>)
    ensures |bytes| == 4
  {
    var b := BytesOf(x);
    if littleEndian then [b[3], b[2], b[1], b[0]] else b
  }

  /** BYTESWAP. */
  function Byteswap(littleEndian: bool, x: word): word
  {
    if littleEndian
    then (((x >> 8) | (x << 24)) & 0xff00ff00) | (((x << 8) | (x >> 24)) & 0x00ff00ff)
    else x
  }

  lemma ByteswapLoads(littleEndian: bool, b0: byte, b1: byte, b2: byte, b3: byte)
    ensures Byteswap(littleEndian, Load(littleEndian, b0, b1, b2, b3)) == WordOf(b0, b1, b2, b3)
  {
  }

  lemma ByteswapStores(littleEndian: bool, x: word)
    ensures Store(littleEndian, Byteswap(littleEndian, x)) == BytesOf(x)
  {
  }

  /** The halves of a 64-bit integer, and the integer with given halves. */
  function High(x: nat): word
    requires x < TWO_TO_THE_64
  {
    (x / TWO_TO_THE_32) as word
  }

  function Low(x: nat): word
  {
    (x % TWO_TO_THE_32) as word
  }

  function Join(high: word, low: word): (x: nat)
    ensures x < TWO_TO_THE_64
  {
    AtMost(high);
    AtMost(low);
    Joined(high as nat, low as nat)
  }

  function Joined(high: nat, low: nat): nat
  {
    high * TWO_TO_THE_32 + low
  }

  lemma AtMost(x: word)
    ensures (x as nat) < TWO_TO_THE_32
  {
  }

  lemma JoinedSplits(high: nat, low: nat)
    requires low < TWO_TO_THE_32
    ensures Joined(high, low) / TWO_TO_THE_32 == high && Joined(high, low) % TWO_TO_THE_32 == low
  {
  }

  lemma ThereAndBack(x: word)
    ensures (x as nat) < TWO_TO_THE_32 && ((x as nat) as word) == x
  {
  }

  lemma HalvesOfJoin(high: word, low: word)
    ensures High(Join(high, low)) == high && Low(Join(high, low)) == low
  {
    hide Joined;
    ThereAndBack(high);
    ThereAndBack(low);
    JoinedSplits(high as nat, low as nat);
  }

  /** BYTESWAP64: the halves are swapped and change places. */
  function Byteswap64(littleEndian: bool, x: nat): (y: nat)
    requires x < TWO_TO_THE_64
    ensures y < TWO_TO_THE_64
  {
    if littleEndian then Join(Byteswap(littleEndian, Low(x)), Byteswap(littleEndian, High(x))) else x
  }

  /** The bytes in memory of a `uint64_t`. */
  function Store64(littleEndian: bool, x: nat): seq<byte>
    requires x < TWO_TO_THE_64
  {
    if littleEndian then Store(littleEndian, Low(x)) + Store(littleEndian, High(x))
    else Store(littleEndian, High(x)) + Store(littleEndian, Low(x))
  }

  /** A swapped counter lies in memory as the standard wants it, on either byte order. */
  lemma Byteswap64Stores(littleEndian: bool, x: nat)
    requires x < TWO_TO_THE_64
    ensures Store64(littleEndian, Byteswap64(littleEndian, x)) == LengthField(x)
  {
    hide Byteswap, Store, BytesOf, Join, High, Low;
    FieldOfHalves(x);
    var a, b := High(x), Low(x);
    ByteswapStores(littleEndian, a);
    ByteswapStores(littleEndian, b);
    HalvesOfJoin(Byteswap(littleEndian, b), Byteswap(littleEndian, a));
    if !littleEndian {
      BigEndianIsPlain(a);
      BigEndianIsPlain(b);
    }
  }

  lemma FieldOfHalves(x: nat)
    requires x < TWO_TO_THE_64
    ensures LengthField(x) == BytesOf(High(x)) + BytesOf(Low(x))
  {
  }

  lemma BigEndianIsPlain(x: word)
    ensures Byteswap(false, x) == x
  {
  }

  // ---------------------------------------------------- the rewritten functions

  /** The macro ROTL. */
  function Rotl(x: word, n: nat): word
    requires 0 < n < 32
  {
    (x << n) | (x >> (32 - n))
  }

  /** The macro and the functions of the standard rotate to the left. */
  lemma RotlRotates(x: word)
    ensures Rotl(x, 1) == Rotl1(x) == x.RotateLeft(1)
    ensures Rotl(x, 5) == Rotl5(x) == x.RotateLeft(5)
    ensures Rotl(x, 30) == Rotl30(x) == x.RotateLeft(30)
  {
  }

  function FastCh(x: word, y: word, z: word): word { z ^ (x & (y ^ z)) }
  function FastMaj(x: word, y: word, z: word): word { (x & (y | z)) | (y & z) }

  /** F_0_19, F_20_39, F_40_59 and F_60_79. */
  function FastF(quarter: nat, x: word, y: word, z: word): word
  {
    if quarter == 0 then FastCh(x, y, z) else if quarter == 2 then FastMaj(x, y, z) else Parity(x, y, z)
  }

  lemma FastChIsCh(x: word, y: word, z: word)
    ensures FastCh(x, y, z) == Ch(x, y, z)
  {
    ChooseBits(x, y, z);
  }

  lemma ChooseBits(x: word, y: word, z: word)
    ensures z ^ (x & (y ^ z)) == (x & y) ^ (!x & z)
  {
  }

  lemma FastMajIsMaj(x: word, y: word, z: word)
    ensures FastMaj(x, y, z) == Maj(x, y, z)
  {
    MajorityBits(x, y, z);
  }

  lemma MajorityBits(x: word, y: word, z: word)
    ensures (x & (y | z)) | (y & z) == (x & y) ^ (x & z) ^ (y & z)
  {
  }

  lemma FastFIsF(quarter: nat, t: nat, x: word, y: word, z: word)
    requires quarter < 4 && 20 * quarter <= t < 20 * quarter + 20
    ensures FastF(quarter, x, y, z) == F(t, x, y, z)
  {
    hide Ch, Maj, Parity, FastCh, FastMaj;
    FastChIsCh(x, y, z);
    FastMajIsMaj(x, y, z);
  }

  // --------------------------------------------------------- one block: SHA1Guts

  /** The two loops that fill the 80-word array, the second with four pointers into it. */
  method ExpandSchedule(littleEndian: bool, cbuf: seq<byte>) returns (buf: array<word>)
    requires |cbuf| == 64
    ensures fresh(buf) && buf.Length == 80
    ensures forall t :: 0 <= t < 80 ==> buf[t] == W(cbuf, t)
  {
    hide Byteswap, Load, WordOf, Rotl, Rotl1, Mix;
    buf := new word[80];
    var w, c := 0, 0;
    for i := 16 downto 0
      invariant w == c == 16 - i
      invariant forall t :: 0 <= t < w ==> buf[t] == W(cbuf, t)
    {
      ByteswapLoads(littleEndian, cbuf[4 * c], cbuf[4 * c + 1], cbuf[4 * c + 2], cbuf[4 * c + 3]);
      var x := Load(littleEndian, cbuf[4 * c], cbuf[4 * c + 1], cbuf[4 * c + 2], cbuf[4 * c + 3]);
      buf[w] := Byteswap(littleEndian, x);
      w := w + 1;
      c := c + 1;
    }
    var w16, w14, w8, w3 := 0, 2, 8, 13;
    for i := 64 downto 0
      invariant w == 80 - i && w16 == w - 16 && w14 == w - 14 && w8 == w - 8 && w3 == w - 3
      invariant forall t :: 0 <= t < w ==> buf[t] == W(cbuf, t)
    {
      buf[w] := Mix(buf[w3], buf[w8], buf[w14], buf[w16]);
      RotlRotates(buf[w]);
      buf[w] := Rotl(buf[w], 1);
      w3, w8, w14, w16 := w3 + 1, w8 + 1, w14 + 1, w16 + 1;
      w := w + 1;
    }
  }

  /** The macro DO_ROUND. */
  method DoRound(quarter: nat, k: word, a: word, b: word, c: word, d: word, e: word, w: word, ghost t: nat)
    returns (a': word, b': word, c': word, d': word, e': word)
    requires quarter < 4 && 20 * quarter <= t < 20 * quarter + 20 && k == K(t)
    ensures Hash(a', b', c', d', e') == Round(Hash(a, b, c, d, e), t, w)
  {
    hide Ch, Maj, Parity, FastCh, FastMaj, F, FastF, Rotl, Rotl5, Rotl30, NewWord, MacroSum;
    RotlRotates(a);
    RotlRotates(b);
    FastFIsF(quarter, t, b, c, d);
    var temp := MacroSum(Rotl(a, 5), FastF(quarter, b, c, d), e, w, k);
    MacroSumIsNewWord(Rotl5(a), F(t, b, c, d), e, w, k);
    return temp, a, Rotl(b, 30), c, d;
  }

  /** The macro adds the schedule word before the constant, the standard after it. */
  function MacroSum(r: word, f: word, e: word, w: word, k: word): word { r + f + e + w + k }

  lemma MacroSumIsNewWord(r: word, f: word, e: word, w: word, k: word)
    ensures MacroSum(r, f, e, w, k) == NewWord(r, f, e, k, w)
  {
  }

  /** The settings of SHA1_UNROLL that compile. */
  predicate Unrolling(unroll: nat)
  {
    unroll in {1, 2, 4, 5, 10, 20}
  }

  /** One group of twenty rounds: a loop over `20 / unroll` copies of `unroll` rounds each. */
  method RoundGroup(buf: array<word>, w0: nat, unroll: nat, k: word, v: Hash, ghost block: seq<byte>, ghost h: Hash)
    returns (v': Hash)
    requires buf.Length == 80 && |block| == 64 && forall t :: 0 <= t < 80 ==> buf[t] == W(block, t)
    requires w0 in {0, 20, 40, 60} && Unrolling(unroll) && k == K(w0) && v == Rounds(h, block, w0)
    ensures v' == Rounds(h, block, w0 + 20)
  {
    hide Round, W;
    var w, quarter := w0, w0 / 20;
    var a, b, c, d, e := v.a, v.b, v.c, v.d, v.e;
    for i := 20 / unroll downto 0
      invariant w == w0 + 20 - unroll * i
      invariant Hash(a, b, c, d, e) == Rounds(h, block, w)
    {
      assert unroll * (i + 1) == unroll * i + unroll;
      for j := 0 to unroll
        invariant w == w0 + 20 - unroll * (i + 1) + j
        invariant Hash(a, b, c, d, e) == Rounds(h, block, w)
      {
        UnrollBound(unroll, i, j);
        a, b, c, d, e := DoRound(quarter, k, a, b, c, d, e, buf[w], w);
        w := w + 1;
      }
    }
    v' := Hash(a, b, c, d, e);
  }

  lemma UnrollBound(unroll: nat, i: nat, j: nat)
    requires Unrolling(unroll) && i < 20 / unroll && j < unroll
    ensures 0 <= 20 - unroll * (i + 1) + j < 20
  {
    assert unroll * (i + 1) <= unroll * (20 / unroll) <= 20;
  }

  method Rounds80(buf: array<word>, unroll: nat, ghost block: seq<byte>, h: Hash) returns (v: Hash)
    requires buf.Length == 80 && |block| == 64 && forall t :: 0 <= t < 80 ==> buf[t] == W(block, t)
    requires Unrolling(unroll)
    ensures v == Rounds(h, block, 80)
  {
    hide Rounds, W;
    v := RoundGroup(buf, 0, unroll, 0x5a827999, h, block, h) by { NoRounds(h, block); }
    v := RoundGroup(buf, 20, unroll, 0x6ed9eba1, v, block, h);
    v := RoundGroup(buf, 40, unroll, 0x8f1bbcdc, v, block, h);
    v := RoundGroup(buf, 60, unroll, 0xca62c1d6, v, block, h);
  }

  lemma NoRounds(h: Hash, block: seq<byte>)
    requires |block| == 64
    ensures Rounds(h, block, 0) == h
  {
  }

  // ------------------------------------------------------------- the context

  /** The whole blocks of a message, and the rest. */
  function Whole(m: seq<byte>): (w: seq<byte>)
    ensures |w| % 64 == 0
  {
    m[..|m| - |m| % 64]
  }

  function Rest(m: seq<byte>): (r: seq<byte>)
    ensures |r| == |m| % 64
  {
    m[|m| - |m| % 64..]
  }

  class SHA1Context {
    const littleEndian: bool
    const unroll: nat
    const fastCopy: bool
    /** A 64-bit counter of bits. */
    var totalLength: nat
    const hash: array<word>
    var bufferLength: nat
    const buffer: array<byte>
    /** Everything absorbed since SHA1Init. */
    ghost var absorbed: seq<byte>

    ghost predicate Shape()
      reads this
    {
      hash.Length == 5 && buffer.Length == 64 && Unrolling(unroll)
    }

    ghost function HashValue(): Hash
      requires Shape()
      reads this, hash
    {
      Hash(hash[0], hash[1], hash[2], hash[3], hash[4])
    }

    ghost predicate Valid()
      reads this, hash, buffer
    {
      && Shape()
      && totalLength == 8 * |absorbed| % TWO_TO_THE_64
      && bufferLength == |absorbed| % 64
      && HashValue() == CompressAll(Whole(absorbed))
      && buffer[..bufferLength] == Rest(absorbed)
    }

    /** Allocation by the caller, then SHA1Init. */
    constructor (littleEndian: bool, unroll: nat, fastCopy: bool)
      requires Unrolling(unroll)
      ensures Valid() && absorbed == [] && fresh(hash) && fresh(buffer)
      ensures this.littleEndian == littleEndian && this.unroll == unroll && this.fastCopy == fastCopy
    {
      this.littleEndian, this.unroll, this.fastCopy := littleEndian, unroll, fastCopy;
      hash := new word[5] [0x67452301, 0xefcdab89, 0x98badcfe, 0x10325476, 0xc3d2e1f0];
      buffer := new byte[64];
      totalLength, bufferLength := 0, 0;
      absorbed := [];
    }

    method Guts(cbuf: seq<byte>)
      requires Shape() && |cbuf| == 64
      modifies hash
      ensures HashValue() == Compress(old(HashValue()), cbuf)
    {
      hide Rounds, W, Add;
      var buf := ExpandSchedule(littleEndian, cbuf);
      var v := Rounds80(buf, unroll, cbuf, Hash(hash[0], hash[1], hash[2], hash[3], hash[4]));
      hash[0] := Add(hash[0], v.a);
      hash[1] := Add(hash[1], v.b);
      hash[2] := Add(hash[2], v.c);
      hash[3] := Add(hash[3], v.d);
      hash[4] := Add(hash[4], v.e);
    }

    /** Copies `piece` to the end of the buffer and counts it, without emptying a full buffer. */
    method Fill(piece: seq<byte>)
      requires Shape() && bufferLength + |piece| <= 64
      modifies this`totalLength, this`bufferLength, buffer
      ensures bufferLength == old(bufferLength) + |piece|
      ensures totalLength == (old(totalLength) + 8 * |piece|) % TWO_TO_THE_64
      ensures buffer[..bufferLength] == old(buffer[..bufferLength]) + piece
    {
      forall k | 0 <= k < |piece| {
        buffer[bufferLength + k] := piece[k];
      }
      totalLength := (totalLength + 8 * |piece|) % TWO_TO_THE_64;
      bufferLength := bufferLength + |piece|;
    }

    /** What both loops of SHA1Update do with a piece that fits the buffer. */
    method Take(piece: seq<byte>)
      requires Valid() && bufferLength + |piece| <= 64
      modifies this`totalLength, this`bufferLength, this`absorbed, buffer, hash
      ensures Valid() && absorbed == old(absorbed) + piece
      ensures bufferLength == if old(bufferLength) + |piece| == 64 then 0 else old(bufferLength) + |piece|
    {
      hide CompressAll, Compress, Whole, Rest;
      AbsorbPiece(absorbed, piece);
      CountBits(|absorbed|, |piece|);
      Fill(piece);
      if bufferLength == 64 {
        assert buffer[..] == buffer[..bufferLength];
        Guts(buffer[..]);
        bufferLength := 0;
      }
      absorbed := absorbed + piece;
    }

    /** A block compressed where it lies. */
    method TakeInPlace(block: seq<byte>)
      requires Valid() && bufferLength == 0 && |block| == 64
      modifies this`totalLength, this`absorbed, hash
      ensures Valid() && absorbed == old(absorbed) + block
    {
      hide CompressAll, Compress, Whole, Rest;
      AbsorbPiece(absorbed, block);
      assert Rest(absorbed) + block == block;
      CountBits(|absorbed|, 64);
      totalLength := (totalLength + 512) % TWO_TO_THE_64;
      Guts(block);
      absorbed := absorbed + block;
    }

    /** SHA1Update without SHA1_FAST_COPY. */
    method UpdatePlain(data: seq<byte>)
      requires Valid() && |data| < TWO_TO_THE_32
      modifies this`totalLength, this`bufferLength, this`absorbed, buffer, hash
      ensures Valid() && absorbed == old(absorbed) + data
    {
      hide CompressAll, Whole, Rest;
      var from := 0;
      while from < |data|
        invariant 0 <= from <= |data| && Valid() && absorbed == old(absorbed) + data[..from]
      {
        var bufferBytesLeft := 64 - bufferLength;
        var bytesToCopy := if bufferBytesLeft > |data| - from then |data| - from else bufferBytesLeft;
        Take(data[from..from + bytesToCopy]);
        assert data[..from] + data[from..from + bytesToCopy] == data[..from + bytesToCopy];
        from := from + bytesToCopy;
      }
      assert data[..from] == data;
    }

    /** SHA1Update with SHA1_FAST_COPY: whole blocks are compressed where they lie. */
    method UpdateFast(data: seq<byte>)
      requires Valid() && |data| < TWO_TO_THE_32
      modifies this`totalLength, this`bufferLength, this`absorbed, buffer, hash
      ensures Valid() && absorbed == old(absorbed) + data
    {
      hide CompressAll, Whole, Rest;
      var from := 0;
      if bufferLength != 0 {
        var bytesToCopy := if 64 - bufferLength > |data| then |data| else 64 - bufferLength;
        Take(data[..bytesToCopy]);
        from := bytesToCopy;
      }
      while |data| - from > 63
        invariant 0 <= from <= |data| && Valid() && absorbed == old(absorbed) + data[..from]
        invariant from == |data| || bufferLength == 0
      {
        TakeInPlace(data[from..from + 64]);
        assert data[..from] + data[from..from + 64] == data[..from + 64];
        from := from + 64;
      }
      if from < |data| {
        Take(data[from..]);
        assert data[..from] + data[from..] == data;
      } else {
        assert data[..from] == data;
      }
    }

    method Update(data: seq<byte>)
      requires Valid() && |data| < TWO_TO_THE_32
      modifies this`totalLength, this`bufferLength, this`absorbed, buffer, hash
      ensures Valid() && absorbed == old(absorbed) + data
    {
      if fastCopy {
        UpdateFast(data);
      } else {
        UpdatePlain(data);
      }
    }

    /** BYTESWAP64 of the counter, as it lies in memory. */
    method LengthBytes() returns (bytes: seq<byte>)
      requires totalLength < TWO_TO_THE_64
      ensures bytes == LengthField(totalLength)
    {
      hide Byteswap64, Store64, LengthField;
      Byteswap64Stores(littleEndian, totalLength);
      var lengthPad := Byteswap64(littleEndian, totalLength);
      bytes := Store64(littleEndian, lengthPad);
    }

    /** The padding of SHA1Final. The length is captured before the padding is counted. */
    method Finish()
      requires Valid() && 8 * |absorbed| < TWO_TO_THE_64
      modifies this`totalLength, this`bufferLength, this`absorbed, buffer, hash
      ensures Valid() && bufferLength == 0 && absorbed == Pad(old(absorbed))
    {
      hide CompressAll, LengthField, Whole, Rest;
      var bytesToPad := 120 - bufferLength;
      if bytesToPad > 64 {
        bytesToPad := bytesToPad - 64;
      }
      PadInTwoPieces(absorbed, bytesToPad);
      assert totalLength == 8 * |absorbed|;
      var lengthPad := LengthBytes();
      Update([0x80] + Zeros(bytesToPad - 1));
      Update(lengthPad);
    }

    /** The two ways in which SHA1Final writes the hash value out. */
    method Output() returns (digest: seq<byte>)
      requires Shape()
      ensures digest == BytesOfHash(HashValue())
    {
      hide BytesOf, Byteswap, Store;
      HashPrefixIsAll(HashValue());
      digest := [];
      for i := 0 to 5
        invariant digest == HashPrefix(HashValue(), i)
      {
        ByteswapStores(littleEndian, hash[i]);
        digest := digest + if fastCopy then Store(littleEndian, Byteswap(littleEndian, hash[i])) else BytesOf(hash[i]);
      }
    }

    /** SHA1Final. */
    method Final() returns (digest: seq<byte>)
      requires Valid() && 8 * |absorbed| < TWO_TO_THE_64
      modifies this`totalLength, this`bufferLength, this`absorbed, buffer, hash
      ensures digest == Digest(old(absorbed)) && bufferLength == 0 && absorbed == Pad(old(absorbed))
    {
      hide CompressAll, Pad;
      Finish();
      assert Whole(absorbed) == absorbed;
      digest := Output();
    }
  }

  /** Init, Update for every piece, Final: the digest does not depend on where the message is cut,
      on the byte order, on the unrolling or on the way of copying. */
  method HashPieces(pieces: seq<seq<byte>>, littleEndian: bool, unroll: nat, fastCopy: bool) returns (digest: seq<byte>)
    requires Unrolling(unroll) && 8 * |Flatten(pieces)| < TWO_TO_THE_64
    requires forall i :: 0 <= i < |pieces| ==> |pieces[i]| < TWO_TO_THE_32
    ensures digest == Digest(Flatten(pieces))
  {
    hide Pad, SHA1Context.Valid;
    var sc := new SHA1Context(littleEndian, unroll, fastCopy);
    for i := 0 to |pieces|
      invariant sc.Valid() && sc.absorbed == Flatten(pieces[..i])
      invariant fresh(sc) && fresh(sc.hash) && fresh(sc.buffer)
    {
      assert pieces[..i + 1][..i] == pieces[..i];
      sc.Update(pieces[i]);
    }
    assert pieces[..|pieces|] == pieces;
    digest := sc.Final();
  }

  /** chunk.c's `shahash`. */
  method Shahash(str: seq<byte>) returns (hash: seq<byte>)
    requires |str| < 0x8000_0000
    ensures hash == Digest(str)
  {
    assert [str][..0] == [];
    assert Flatten([str]) == str;
    hash := HashPieces([str], true, 20, false);
  }

  /** Padding adds one block, or two when fewer than nine bytes are left in the last one. */
  lemma PadBlocks(message: seq<byte>)
    requires 8 * |message| < TWO_TO_THE_64
    ensures Whole(message) <= Pad(message)
    ensures |Pad(message)| == |Whole(message)| + if |message| % 64 < 56 then 64 else 128
  {
    hide LengthField;
    assert Pad(message)[..|Whole(message)|] == Whole(message);
  }

  function HashPrefix(h: Hash, n: nat): seq<byte>
    requires n <= 5
  {
    if n == 0 then [] else HashPrefix(h, n - 1) + BytesOf([h.a, h.b, h.c, h.d, h.e][n - 1])
  }

  lemma HashPrefixIsAll(h: Hash)
    ensures HashPrefix(h, 5) == BytesOfHash(h)
  {
    hide BytesOf;
    assert HashPrefix(h, 1) == BytesOf(h.a);
    assert HashPrefix(h, 2) == BytesOf(h.a) + BytesOf(h.b);
    assert HashPrefix(h, 3) == BytesOf(h.a) + BytesOf(h.b) + BytesOf(h.c);
    assert HashPrefix(h, 4) == BytesOf(h.a) + BytesOf(h.b) + BytesOf(h.c) + BytesOf(h.d);
  }

  lemma RemainderGrows(a: nat, b: nat)
    requires a % 64 + b <= 64
    ensures (a + b) % 64 == if a % 64 + b == 64 then 0 else a % 64 + b
  {
  }

  lemma AbsorbPart(m: seq<byte>, piece: seq<byte>)
    requires |Rest(m)| + |piece| < 64
    ensures Whole(m + piece) == Whole(m) && Rest(m + piece) == Rest(m) + piece
  {
    RemainderGrows(|m|, |piece|);
    var from := |m| - |m| % 64;
    assert (m + piece)[..from] == m[..from];
    assert (m + piece)[from..] == m[from..] + piece;
  }

  lemma AbsorbBlock(m: seq<byte>, piece: seq<byte>)
    requires |Rest(m)| + |piece| == 64
    ensures Rest(m + piece) == []
    ensures CompressAll(Whole(m + piece)) == Compress(CompressAll(Whole(m)), Rest(m) + piece)
  {
    hide Compress;
    RemainderGrows(|m|, |piece|);
    var all, from := m + piece, |m| - |m| % 64;
    assert Whole(all) == all;
    assert |all| - 64 == from;
    assert all[..from] == m[..from];
    assert all[from..] == m[from..] + piece;
  }

  /** A piece either leaves the whole blocks alone or completes one more. */
  lemma AbsorbPiece(m: seq<byte>, piece: seq<byte>)
    requires |Rest(m)| + |piece| <= 64
    ensures |m + piece| % 64 == if |Rest(m)| + |piece| == 64 then 0 else |Rest(m)| + |piece|
    ensures |Rest(m)| + |piece| < 64 ==> Whole(m + piece) == Whole(m) && Rest(m + piece) == Rest(m) + piece
    ensures |Rest(m)| + |piece| == 64 ==>
              && Rest(m + piece) == []
              && CompressAll(Whole(m + piece)) == Compress(CompressAll(Whole(m)), Rest(m) + piece)
  {
    hide Compress, CompressAll, Whole;
    RemainderGrows(|m|, |piece|);
    if |Rest(m)| + |piece| == 64 {
      AbsorbBlock(m, piece);
    } else {
      AbsorbPart(m, piece);
    }
  }

  lemma CountBits(have: nat, more: nat)
    ensures (8 * have % TWO_TO_THE_64 + 8 * more) % TWO_TO_THE_64 == 8 * (have + more) % TWO_TO_THE_64
  {
  }

  lemma PadInTwoPieces(message: seq<byte>, bytesToPad: nat)
    requires 8 * |message| < TWO_TO_THE_64
    requires bytesToPad == if 120 - |message| % 64 > 64 then 56 - |message| % 64 else 120 - |message| % 64
    ensures message + ([0x80] + Zeros(bytesToPad - 1)) + LengthField(8 * |message|) == Pad(message)
  {
    assert bytesToPad - 1 == PadZeros(|message|);
  }
}
