/**
  The packets of network.c as they go over the wire: the header that `fill_header` writes and the
  lists of hashes in WHOHAS and IHAVE.
 */
module Packets {
  import opened Wrappers

  const MAGIC_NUMBER: nat := 15441
  const VERSION_NUMBER: nat := 1
  const HEADER_LENGTH: nat := 16
  const CHUNK_NUMBER_AND_PADDING_SIZE: nat := 4
  const SHA1_HASH_SIZE: nat := 20
  const CHUNK_PER_PACKET: nat := 74
  const MAX_PACKET_SIZE: nat := 1500

  const WHOHAS: nat := 0
  const IHAVE: nat := 1

  type Key = seq<byte>

  /** A byte on the wire. */
  type octet = n: nat | n < 256

  function OctetOf(b: byte): octet
  {
    b as nat
  }

  function ByteOf(o: octet): byte
  {
    o as byte
  }

  lemma ByteRoundTrip(b: byte)
    ensures ByteOf(OctetOf(b)) == b
  {
  }

  function Octets(key: Key): (octets: seq<octet>)
    ensures |octets| == |key|
  {
    seq(|key|, i requires 0 <= i < |key| => OctetOf(key[i]))
  }

  function KeyOf(octets: seq<octet>): (key: Key)
    ensures |key| == |octets|
  {
    seq(|octets|, i requires 0 <= i < |octets| => ByteOf(octets[i]))
  }

  lemma KeyRoundTrip(key: Key)
    ensures KeyOf(Octets(key)) == key
  {
    hide ByteOf, OctetOf;
    forall i | 0 <= i < |key|
      ensures KeyOf(Octets(key))[i] == key[i]
    {
      ByteRoundTrip(key[i]);
    }
  }

  /** A 16-bit number in network byte order, and back. */
  function Htons(n: nat): (b: seq<octet>)
    requires n < 0x1_0000
    ensures |b| == 2
  {
    [n / 256, n % 256]
  }

  function Ntohs(p: seq<octet>, at: nat): nat
    requires at + 2 <= |p|
  {
    var high: nat := p[at];
    256 * high + p[at + 1]
  }

  function Htonl(n: nat): (b: seq<octet>)
    requires n < 0x1_0000_0000
    ensures |b| == 4
  {
    Htons(n / 0x1_0000) + Htons(n % 0x1_0000)
  }

  function Ntohl(p: seq<octet>, at: nat): nat
    requires at + 4 <= |p|
  {
    0x1_0000 * Ntohs(p, at) + Ntohs(p, at + 2)
  }

  function Header(kind: nat, length: nat, num: nat, ack: nat): (h: seq<octet>)
    requires kind < 256 && length < 0x1_0000 && num < 0x1_0000_0000 && ack < 0x1_0000_0000
    ensures |h| == HEADER_LENGTH
  {
    Htons(MAGIC_NUMBER) + [VERSION_NUMBER, kind] + Htons(HEADER_LENGTH) + Htons(length) + Htonl(num) + Htonl(ack)
  }

  lemma HtonsRoundTrip(p: seq<octet>, at: nat, n: nat)
    requires n < 0x1_0000 && at + 2 <= |p| && p[at..at + 2] == Htons(n)
    ensures Ntohs(p, at) == n
  {
    assert p[at] == p[at..at + 2][0] && p[at + 1] == p[at..at + 2][1];
  }

  lemma HtonlRoundTrip(p: seq<octet>, at: nat, n: nat)
    requires n < 0x1_0000_0000 && at + 4 <= |p| && p[at..at + 4] == Htonl(n)
    ensures Ntohl(p, at) == n
  {
    hide Htons, Ntohs;
    assert p[at..at + 2] == p[at..at + 4][..2];
    assert p[at + 2..at + 4] == p[at..at + 4][2..];
    HtonsRoundTrip(p, at, n / 0x1_0000);
    HtonsRoundTrip(p, at + 2, n % 0x1_0000);
  }

  /** Every field that `process_inbound_udp` reads back is the one that was written. */
  lemma HeaderRoundTrip(kind: nat, length: nat, num: nat, ack: nat, payload: seq<octet>)
    requires kind < 256 && length < 0x1_0000 && num < 0x1_0000_0000 && ack < 0x1_0000_0000
    ensures var p := Header(kind, length, num, ack) + payload;
            && Ntohs(p, 0) == MAGIC_NUMBER && p[2] == VERSION_NUMBER && p[3] == kind
            && Ntohs(p, 4) == HEADER_LENGTH && Ntohs(p, 6) == length && Ntohl(p, 8) == num && Ntohl(p, 12) == ack
  {
    hide Htons, Htonl, Ntohs, Ntohl;
    var p := Header(kind, length, num, ack) + payload;
    assert p[0..2] == Htons(MAGIC_NUMBER);
    assert p[4..6] == Htons(HEADER_LENGTH);
    assert p[6..8] == Htons(length);
    assert p[8..12] == Htonl(num);
    assert p[12..16] == Htonl(ack);
    HtonsRoundTrip(p, 0, MAGIC_NUMBER);
    HtonsRoundTrip(p, 4, HEADER_LENGTH);
    HtonsRoundTrip(p, 6, length);
    HtonlRoundTrip(p, 8, num);
    HtonlRoundTrip(p, 12, ack);
  }

  /** The number that `b` writes to base 256, most significant byte first. */
  function BigEndian(b: seq<octet>): nat
  {
    if b == [] then 0
    else
      var last: nat := b[|b| - 1];
      256 * BigEndian(b[..|b| - 1]) + last
  }

  lemma ShortLayout(n: nat)
    requires n < 0x1_0000
    ensures BigEndian(Htons(n)) == n
  {
    var high: octet, low: octet := n / 256, n % 256;
    assert [high, low][..1] == [high] && [high][..0] == [];
    assert BigEndian([high]) == 256 * BigEndian([]) + (high as nat);
    assert BigEndian([high, low]) == 256 * BigEndian([high]) + (low as nat);
  }

  lemma LongLayout(n: nat)
    requires n < 0x1_0000_0000
    ensures BigEndian(Htonl(n)) == n
  {
    hide Htons;
    var high, low := Htons(n / 0x1_0000), Htons(n % 0x1_0000);
    ShortLayout(n / 0x1_0000);
    ShortLayout(n % 0x1_0000);
    assert (high + low)[..3] == high + low[..1] && (high + low[..1])[..2] == high && low[..1][..0] == [];
    assert BigEndian(low) == 256 * BigEndian(low[..1]) + (low[1] as nat) && BigEndian(low[..1]) == low[0] as nat;
    assert BigEndian(high + low[..1]) == 256 * BigEndian(high) + (low[0] as nat);
  }

  /** The sixteen bytes on the wire: magic number, version, type, the two lengths, the number of the
      packet and the number acknowledged, all with the most significant byte first. */
  lemma HeaderLayout(kind: nat, length: nat, num: nat, ack: nat)
    requires kind < 256 && length < 0x1_0000 && num < 0x1_0000_0000 && ack < 0x1_0000_0000
    ensures var h := Header(kind, length, num, ack);
            && h[..6] == [60, 81, 1, kind, 0, 16]
            && BigEndian(h[6..8]) == length && BigEndian(h[8..12]) == num && BigEndian(h[12..]) == ack
  {
    hide Htonl, BigEndian;
    var h := Header(kind, length, num, ack);
    assert h[..6] == [60, 81, 1, kind, 0, 16];
    assert h[6..8] == Htons(length) && h[8..12] == Htonl(num) && h[12..] == Htonl(ack);
    ShortLayout(length);
    LongLayout(num);
    LongLayout(ack);
  }

  const DATA: nat := 3

  /** A DATA packet: the receiver computes the size of the payload from two fields, and finds the
      number and the payload it was given. */
  lemma DataRoundTrip(num: nat, data: seq<octet>)
    requires num < 0x1_0000_0000 && |data| <= MAX_PACKET_SIZE - HEADER_LENGTH
    ensures var p := Header(DATA, |data| + HEADER_LENGTH, num, 0) + data;
            && Ntohl(p, 8) == num && p[3] == DATA
            && Ntohs(p, 6) - Ntohs(p, 4) == |data| && p[Ntohs(p, 4)..Ntohs(p, 6)] == data
  {
    hide Header, Ntohs, Ntohl;
    HeaderRoundTrip(DATA, |data| + HEADER_LENGTH, num, 0, data);
  }

  // ------------------------------------------------------------- lists of hashes

  function Concat(hashes: seq<Key>): seq<octet>
  {
    if hashes == [] then [] else Concat(hashes[..|hashes| - 1]) + Octets(hashes[|hashes| - 1])
  }

  ghost predicate Hashes(hashes: seq<Key>)
  {
    forall i :: 0 <= i < |hashes| ==> |hashes[i]| == SHA1_HASH_SIZE
  }

  function ListLength(n: nat): nat
  {
    n * SHA1_HASH_SIZE + HEADER_LENGTH + CHUNK_NUMBER_AND_PADDING_SIZE
  }

  /** A packet that lists `hashes`: the count, three bytes of padding, the hashes. */
  function HashList(kind: nat, hashes: seq<Key>): seq<octet>
    requires kind < 256 && |hashes| <= CHUNK_PER_PACKET
  {
    Header(kind, ListLength(|hashes|), 0, 0) + [|hashes|, 0, 0, 0] + Concat(hashes)
  }

  /** The two ways in which the program counts the hashes in a packet: by the count byte, as in
      `packet_contain_chunk`, and by the length field, as in `update_chunks`. */
  function CountByte(p: seq<octet>): nat
    requires HEADER_LENGTH < |p|
  {
    p[HEADER_LENGTH]
  }

  function CountByLength(p: seq<octet>): int
    requires HEADER_LENGTH <= |p|
  {
    (Ntohs(p, 6) - 20) / 20
  }

  function HashAt(p: seq<octet>, i: nat): Key
    requires 20 + 20 * i + 20 <= |p|
  {
    KeyOf(p[20 + 20 * i..20 + 20 * i + 20])
  }

  function HashesOf(p: seq<octet>, n: nat): (hashes: seq<Key>)
    requires 20 + 20 * n <= |p|
    ensures |hashes| == n
  {
    if n == 0 then [] else HashesOf(p, n - 1) + [HashAt(p, n - 1)]
  }

  /** A packet long enough for what its count byte promises. */
  predicate Whole(p: seq<octet>)
  {
    |p| >= 20 && 20 + 20 * CountByte(p) <= |p|
  }

  function Listed(p: seq<octet>): (hashes: seq<Key>)
    requires Whole(p)
  {
    HashesOf(p, CountByte(p))
  }

  lemma {:induction false} ConcatLength(hashes: seq<Key>)
    requires Hashes(hashes)
    ensures |Concat(hashes)| == 20 * |hashes|
  {
    if hashes != [] {
      ConcatLength(hashes[..|hashes| - 1]);
    }
  }

  lemma MiddleSlice(front: seq<octet>, middle: seq<octet>, back: seq<octet>)
    ensures (front + middle + back)[|front|..|front| + |middle|] == middle
  {
  }

  lemma Regroup(front: seq<octet>, a: seq<octet>, b: seq<octet>, back: seq<octet>)
    ensures front + (a + b) + back == front + a + (b + back) == (front + a) + b + back
  {
  }

  lemma OneMoreHash(p: seq<octet>, n: nat)
    requires 20 + 20 * (n + 1) <= |p|
    ensures HashesOf(p, n + 1) == HashesOf(p, n) + [HashAt(p, n)]
  {
  }

  lemma OneMoreConcat(hashes: seq<Key>)
    requires hashes != [] && Hashes(hashes)
    ensures var n := |hashes| - 1; Concat(hashes) == Concat(hashes[..n]) + Octets(hashes[n])
  {
  }

  /** The hash behind `before` is the one whose octets lie there. */
  lemma HashOfMiddle(before: seq<octet>, hash: Key, back: seq<octet>, n: nat)
    requires |before| == 20 + 20 * n && |hash| == 20
    ensures |before + Octets(hash) + back| >= 20 + 20 * (n + 1)
    ensures HashAt(before + Octets(hash) + back, n) == hash
  {
    hide Octets, KeyOf;
    MiddleSlice(before, Octets(hash), back);
    KeyRoundTrip(hash);
  }

  lemma {:induction false} HashesOfConcat(front: seq<octet>, hashes: seq<Key>, back: seq<octet>)
    requires |front| == 20 && Hashes(hashes)
    ensures |front + Concat(hashes) + back| >= 20 + 20 * |hashes|
    ensures HashesOf(front + Concat(hashes) + back, |hashes|) == hashes
    decreases |hashes|
  {
    ConcatLength(hashes);
    if hashes != [] {
      hide HashesOf, Concat, HashAt, Octets;
      var n := |hashes| - 1;
      var first, last := hashes[..n], Octets(hashes[n]);
      ConcatLength(first);
      HashesOfConcat(front, first, last + back);
      OneMoreConcat(hashes);
      Regroup(front, Concat(first), last, back);
      OneMoreHash(front + Concat(hashes) + back, n);
      HashOfMiddle(front + Concat(first), hashes[n], back, n);
    }
  }

  /** A list of at most 74 hashes fits a packet, both counts agree, and the hashes come back. */
  lemma HashListRoundTrip(kind: nat, hashes: seq<Key>)
    requires kind < 256 && |hashes| <= CHUNK_PER_PACKET && Hashes(hashes)
    ensures var p := HashList(kind, hashes);
            && |p| == ListLength(|hashes|) <= MAX_PACKET_SIZE
            && Whole(p) && CountByte(p) == CountByLength(p) == |hashes|
            && Listed(p) == hashes
  {
    hide Header, Ntohs, HashAt;
    var p := HashList(kind, hashes);
    var header, padding := Header(kind, ListLength(|hashes|), 0, 0), [|hashes|, 0, 0, 0];
    HeaderRoundTrip(kind, ListLength(|hashes|), 0, 0, padding + Concat(hashes));
    assert header + (padding + Concat(hashes)) == p;
    ConcatLength(hashes);
    HashesOfConcat(header + padding, hashes, []);
    assert header + padding + Concat(hashes) + [] == p;
  }

  lemma {:induction false} ConcatAt(hashes: seq<Key>, i: nat, j: nat)
    requires Hashes(hashes) && i < |hashes| && j < 20
    ensures |Concat(hashes)| == 20 * |hashes| && Concat(hashes)[20 * i + j] == hashes[i][j] as nat
    decreases |hashes|
  {
    ConcatLength(hashes);
    var n := |hashes| - 1;
    ConcatLength(hashes[..n]);
    if i < n {
      ConcatAt(hashes[..n], i, j);
    }
  }

  /** Where a list lies on the wire: the count, three zeros, and the hashes byte by byte. */
  lemma HashListLayout(kind: nat, hashes: seq<Key>, i: nat, j: nat)
    requires kind < 256 && |hashes| <= CHUNK_PER_PACKET && Hashes(hashes) && i < |hashes| && j < 20
    ensures var p := HashList(kind, hashes);
            && |p| == ListLength(|hashes|) && p[..16] == Header(kind, ListLength(|hashes|), 0, 0)
            && p[16] == |hashes| && p[17] == p[18] == p[19] == 0
            && p[20 + 20 * i + j] == hashes[i][j] as nat
  {
    hide Header, Concat;
    ConcatAt(hashes, i, j);
    ConcatLength(hashes);
    var front := Header(kind, ListLength(|hashes|), 0, 0) + [|hashes|, 0, 0, 0];
    assert HashList(kind, hashes) == front + Concat(hashes);
    assert HashList(kind, hashes)[20 + 20 * i + j] == Concat(hashes)[20 * i + j];
  }
}
