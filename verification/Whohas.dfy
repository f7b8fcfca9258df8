/**
  Asking for chunks: WHOHAS packets, the IHAVE answer, and the chunk picked from it
  (`make_packet` in network.c, `find_chunk` and `pick_a_chunk` in util.c).
 */
module Whohas {
  import opened Wrappers
  import opened Packets
  import Scheduler

  /** The hashes of the chunks not started, in order. */
  function Missing(chunks: seq<Scheduler.Chunk>): seq<Key>
  {
    if chunks == [] then []
    else
      var c := chunks[|chunks| - 1];
      Missing(chunks[..|chunks| - 1]) + if c.state == Scheduler.NotStarted then [c.hash] else []
  }

  /** How many packets `n` hashes take. */
  function PacketCount(n: nat): nat
  {
    if n % CHUNK_PER_PACKET == 0 then n / CHUNK_PER_PACKET else n / CHUNK_PER_PACKET + 1
  }

  /** Which of `hashes` packet `j` carries. */
  function Share(hashes: seq<Key>, j: nat): (share: seq<Key>)
    ensures |share| <= CHUNK_PER_PACKET
  {
    var from := CHUNK_PER_PACKET * j;
    if from >= |hashes| then []
    else if from + CHUNK_PER_PACKET >= |hashes| then hashes[from..] else hashes[from..from + CHUNK_PER_PACKET]
  }

  function ListedAll(packets: seq<seq<octet>>): seq<Key>
    requires forall j :: 0 <= j < |packets| ==> Whole(packets[j])
  {
    if packets == [] then [] else ListedAll(packets[..|packets| - 1]) + Listed(packets[|packets| - 1])
  }

  ghost predicate Asks(packets: seq<seq<octet>>, hashes: seq<Key>)
  {
    && |packets| == PacketCount(|hashes|)
    && forall j :: 0 <= j < |packets| ==> packets[j] == HashList(WHOHAS, Share(hashes, j))
  }

  /** The WHOHAS case of `make_packet`: the packets share one index into the list of chunks. The
      counting loop has an 8-bit index, so a request has at most 255 chunks. */
  method MakeWhohas(chunks: seq<Scheduler.Chunk>) returns (packets: seq<seq<octet>>)
    requires |chunks| <= 255
    ensures Asks(packets, Missing(chunks))
  {
    hide HashList, Missing;
    var unfinished := CountMissing(chunks);
    var count := if unfinished % CHUNK_PER_PACKET == 0 then unfinished / CHUNK_PER_PACKET
                 else unfinished / CHUNK_PER_PACKET + 1;
    packets := [];
    var current := 0;
    ghost var all := Missing(chunks);
    NothingMissing(chunks);
    for j := 0 to count
      invariant |packets| == j && current <= |chunks|
      invariant forall i :: 0 <= i < j ==> packets[i] == HashList(WHOHAS, Share(all, i))
      invariant Missing(chunks[..current]) == all[..Sent(|all|, j)]
    {
      SharesFollow(all, j);
      var n := if count <= j + 1 then unfinished - j * CHUNK_PER_PACKET else CHUNK_PER_PACKET;
      var hashes;
      hashes, current := NextMissing(chunks, current, n);
      assert hashes == Share(all, j) by {
        NextIs(all, Missing(chunks[..current]), Sent(|all|, j), hashes);
      }
      packets := packets + [HashList(WHOHAS, hashes)];
    }
  }

  lemma NothingMissing(chunks: seq<Scheduler.Chunk>)
    ensures Missing(chunks[..0]) == [] == Missing(chunks)[..0]
  {
  }

  /** How many of `total` hashes the first `j` packets carry. */
  function Sent(total: nat, j: nat): (n: nat)
    ensures n <= total
  {
    if 74 * j < total then 74 * j else total
  }

  lemma SharesFollow(hashes: seq<Key>, j: nat)
    requires j < PacketCount(|hashes|)
    ensures Sent(|hashes|, j) == 74 * j < |hashes|
    ensures Sent(|hashes|, j + 1) ==
            Sent(|hashes|, j) + if PacketCount(|hashes|) <= j + 1 then |hashes| - 74 * j else 74
    ensures Share(hashes, j) == hashes[Sent(|hashes|, j)..Sent(|hashes|, j + 1)]
    ensures |Share(hashes, j)| <= CHUNK_PER_PACKET
  {
  }

  lemma NextIs(all: seq<Key>, prefix: seq<Key>, from: nat, hashes: seq<Key>)
    requires from <= |all| && prefix <= all && prefix == all[..from] + hashes
    ensures from + |hashes| <= |all| && hashes == all[from..from + |hashes|]
    ensures prefix == all[..from + |hashes|]
  {
    assert |prefix| == from + |hashes|;
    assert forall i :: 0 <= i < |hashes| ==> hashes[i] == prefix[from + i];
  }

  method CountMissing(chunks: seq<Scheduler.Chunk>) returns (n: nat)
    ensures n == |Missing(chunks)|
  {
    n := 0;
    for i := 0 to |chunks|
      invariant n == |Missing(chunks[..i])|
    {
      assert chunks[..i + 1][..i] == chunks[..i];
      if chunks[i].state == Scheduler.NotStarted {
        n := n + 1;
      }
    }
    assert chunks[..|chunks|] == chunks;
  }

  /** The two inner loops: collects the next `n` hashes from index `from` on. */
  method NextMissing(chunks: seq<Scheduler.Chunk>, from: nat, n: nat) returns (hashes: seq<Key>, to: nat)
    requires from <= |chunks| && |Missing(chunks[..from])| + n <= |Missing(chunks)|
    ensures |hashes| == n && from <= to <= |chunks|
    ensures Missing(chunks[..to]) == Missing(chunks[..from]) + hashes
    ensures Missing(chunks[..to]) <= Missing(chunks)
  {
    hashes, to := [], from;
    for k := 0 to n
      invariant |hashes| == k && from <= to <= |chunks|
      invariant Missing(chunks[..to]) == Missing(chunks[..from]) + hashes
    {
      ghost var start := to;
      assert chunks[..|chunks|] == chunks;
      while to < |chunks| && chunks[to].state != Scheduler.NotStarted
        invariant start <= to <= |chunks| && Missing(chunks[..to]) == Missing(chunks[..start])
      {
        assert chunks[..to + 1][..to] == chunks[..to];
        to := to + 1;
      }
      assert to < |chunks|;
      assert chunks[..to + 1][..to] == chunks[..to];
      hashes := hashes + [chunks[to].hash];
      to := to + 1;
    }
    MissingPrefix(chunks, to);
  }

  lemma {:induction false} MissingPrefix(chunks: seq<Scheduler.Chunk>, n: nat)
    requires n <= |chunks|
    ensures Missing(chunks[..n]) <= Missing(chunks)
    decreases |chunks|
  {
    if n == |chunks| {
      assert chunks[..n] == chunks;
    } else {
      var m := |chunks| - 1;
      MissingPrefix(chunks[..m], n);
      assert chunks[..m][..n] == chunks[..n];
    }
  }

  /** Decoding the packets one after the other gives back exactly the hashes asked for, in order;
      no packet is longer than 1500 bytes or empty. */
  lemma {:induction false} AskedIsMissing(packets: seq<seq<octet>>, hashes: seq<Key>, n: nat)
    requires Asks(packets, hashes) && Hashes(hashes) && n <= |packets|
    ensures forall j :: 0 <= j < n ==> Whole(packets[j]) && |packets[j]| <= MAX_PACKET_SIZE && Listed(packets[j]) != []
    ensures ListedAll(packets[..n]) == hashes[..Sent(|hashes|, n)]
    decreases n
  {
    hide HashList, Whole, Listed, Share;
    if n > 0 {
      AskedIsMissing(packets, hashes, n - 1);
      SharesFollow(hashes, n - 1);
      ShareIsHashes(hashes, n - 1);
      HashListRoundTrip(WHOHAS, Share(hashes, n - 1));
      assert packets[..n][..n - 1] == packets[..n - 1];
    }
  }

  lemma ShareIsHashes(hashes: seq<Key>, j: nat)
    requires Hashes(hashes)
    ensures Hashes(Share(hashes, j)) && |Share(hashes, j)| <= CHUNK_PER_PACKET
  {
  }

  /** The same for the packets that are made. */
  lemma WhohasRoundTrip(chunks: seq<Scheduler.Chunk>, packets: seq<seq<octet>>)
    requires Asks(packets, Missing(chunks)) && Hashes(Missing(chunks))
    ensures forall j :: 0 <= j < |packets| ==> Whole(packets[j]) && |packets[j]| <= MAX_PACKET_SIZE
    ensures ListedAll(packets) == Missing(chunks)
  {
    var all := Missing(chunks);
    AskedIsMissing(packets, all, |packets|);
    assert packets[..|packets|] == packets;
    assert Sent(|all|, |packets|) == |all|;
    assert all[..|all|] == all;
  }

  // ------------------------------------------------------------------ the answer

  /** Those of `hashes` that are owned, in order. */
  function Owned(hashes: seq<Key>, has: seq<Key>): seq<Key>
  {
    if hashes == [] then []
    else
      var h := hashes[|hashes| - 1];
      Owned(hashes[..|hashes| - 1], has) + if h in has then [h] else []
  }

  method FindChunk(hash: Key, has: seq<Key>) returns (r: int)
    ensures r == if hash in has then 1 else -1
  {
    for i := 0 to |has|
      invariant hash !in has[..i]
    {
      if has[i] == hash {
        return 1;
      }
    }
    return -1;
  }

  /** The IHAVE case of `make_packet`: no packet when nothing asked for is owned. It is not `ok` to own
      more of the question than fits into the payload: the copy of the 75th hash leaves it. */
  method MakeIHave(packetIn: seq<octet>, has: seq<Key>) returns (ok: bool, packet: Option<seq<octet>>)
    requires Whole(packetIn)
    ensures var owned := Owned(Listed(packetIn), has);
            && (ok <==> |owned| <= CHUNK_PER_PACKET)
            && (ok ==> packet == if owned == [] then None else Some(HashList(IHAVE, owned)))
  {
    var chunkCount := CountByte(packetIn);
    var hashes: seq<Key> := [];
    for i := 0 to chunkCount
      invariant hashes == Owned(HashesOf(packetIn, i), has)
    {
      assert HashesOf(packetIn, i + 1)[..i] == HashesOf(packetIn, i);
      var hash := HashAt(packetIn, i);
      var r := FindChunk(hash, has);
      if r > 0 {
        hashes := hashes + [hash];
      }
    }
    ok := |hashes| <= CHUNK_PER_PACKET;
    packet := if !ok || hashes == [] then None else Some(HashList(IHAVE, hashes));
  }

  lemma {:induction false} OwnedIff(hashes: seq<Key>, has: seq<Key>, h: Key)
    ensures h in Owned(hashes, has) <==> h in hashes && h in has
    ensures Hashes(hashes) ==> Hashes(Owned(hashes, has))
    ensures |Owned(hashes, has)| <= |hashes|
  {
    if hashes != [] {
      OwnedIff(hashes[..|hashes| - 1], has, h);
    }
  }

  /** The answer to packet `j` of a request, decoded either way, lists exactly those of its hashes
      that the answering peer owns. */
  lemma AnswerListsOwned(hashes: seq<Key>, j: nat, has: seq<Key>)
    requires Hashes(hashes)
    ensures var question := HashList(WHOHAS, Share(hashes, j));
            && Whole(question) && CountByte(question) <= CHUNK_PER_PACKET
            && var owned := Owned(Listed(question), has);
               && |owned| <= CHUNK_PER_PACKET
               && var answer := HashList(IHAVE, owned);
                  && Whole(answer) && Listed(answer) == owned && CountByLength(answer) == CountByte(answer)
                  && forall h :: h in Listed(answer) <==> h in Share(hashes, j) && h in has
  {
    hide HashList, Whole, Listed, CountByte, CountByLength;
    var share := Share(hashes, j);
    HashListRoundTrip(WHOHAS, share);
    var owned := Owned(share, has);
    forall h
      ensures h in owned <==> h in share && h in has
      ensures Hashes(owned) && |owned| <= |share|
    {
      OwnedIff(share, has, h);
    }
    assert [] in owned || [] !in owned;
    OwnedIff(share, has, []);
    HashListRoundTrip(IHAVE, owned);
  }

  // -------------------------------------------------------------------- the pick

  lemma {:induction false} MissingIff(chunks: seq<Scheduler.Chunk>, h: Key)
    ensures h in Missing(chunks) <==>
              exists k :: 0 <= k < |chunks| && chunks[k].hash == h && chunks[k].state == Scheduler.NotStarted
    decreases |chunks|
  {
    if chunks != [] {
      var n := |chunks| - 1;
      MissingIff(chunks[..n], h);
      assert forall k :: 0 <= k < n ==> chunks[..n][k] == chunks[k];
    }
  }

  /** Of an answer to a question about what was missing, the first hash still missing in the order
      of the request is picked; nothing is picked exactly when none is missing any more. */
  lemma {:induction false} PickTakesFirst(chunks: seq<Scheduler.Chunk>, offer: seq<Key>)
    ensures var k := Scheduler.Find(chunks, Scheduler.Wanted(offer));
            var wanted := Owned(Missing(chunks), offer);
            if wanted == [] then k == |chunks| else k < |chunks| && chunks[k].hash == wanted[0]
    decreases |chunks|
  {
    if chunks != [] {
      var before, c := chunks[..|chunks| - 1], chunks[|chunks| - 1];
      PickTakesFirst(before, offer);
      OwnedOneMore(Missing(before), c.hash, offer);
      assert Scheduler.Wanted(offer)(c) <==> c.state == Scheduler.NotStarted && c.hash in offer;
      assert Missing(chunks) == if c.state == Scheduler.NotStarted then Missing(before) + [c.hash] else Missing(before);
    }
  }

  lemma OwnedOneMore(hashes: seq<Key>, h: Key, has: seq<Key>)
    ensures Owned(hashes + [h], has) == Owned(hashes, has) + if h in has then [h] else []
  {
    assert (hashes + [h])[..|hashes|] == hashes;
  }
}
