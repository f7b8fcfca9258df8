/**
  Who is asked for what: after an offer, after the last DATA of a chunk and after a timeout. The
  statements are in terms of the lists themselves, position by position.
 */
module SchedulerAsks {
  import opened Wrappers
  import opened Common
  import opened Scheduler
  import opened SchedulerInvariant
  import opened SchedulerRuns
  import Fips180
  import Receiver

  // ------------------------------------------------------------------ definitions

  /** `peer` is known to have `h`. */
  ghost predicate Lists(connections: seq<Connection>, peer: int, h: Key)
  {
    exists j :: 0 <= j < |connections| && connections[j].peer == peer && h in connections[j].hashes
  }

  /** Chunk `m` has not been started, and `peer` is known to have it. */
  ghost predicate OnOffer(s: State, peer: int, m: int)
    requires 0 <= m < |Chunks(s)|
  {
    Chunks(s)[m].state == NotStarted && Lists(s.connections, peer, Chunks(s)[m].hash)
  }

  ghost predicate FirstOnOffer(s: State, peer: int, m: int)
  {
    0 <= m < |Chunks(s)| && OnOffer(s, peer, m) && forall i :: 0 <= i < m ==> !OnOffer(s, peer, i)
  }

  ghost predicate NothingOnOffer(s: State, peer: int)
  {
    forall m :: 0 <= m < |Chunks(s)| ==> !OnOffer(s, peer, m)
  }

  /** The entries of `peer` carry the mark, and the others are as they were. */
  ghost predicate Marked(before: seq<Connection>, after: seq<Connection>, peer: int, working: bool)
  {
    && |after| == |before|
    && forall j :: 0 <= j < |before| ==>
         after[j] == if before[j].peer == peer then before[j].(working := working) else before[j]
  }

  ghost predicate FirstFree(slots: seq<Slot>, i: int)
  {
    0 <= i < |slots| && slots[i].Free? && forall j :: 0 <= j < i ==> slots[j].Busy?
  }

  /** Chunk `m` is marked as received from `peer`, which works for the first free slot if there is one,
      and is sent a GET in that case only. */
  ghost predicate Asked(s: State, s': State, peer: int, m: int, now: int, get: Option<Key>)
    requires s.request.Some? && 0 <= m < |s.request.value|
  {
    var hash := s.request.value[m].hash;
    && s'.request == Some(s.request.value[m := s.request.value[m].(state := Receiving)])
    && Marked(s.connections, s'.connections, peer, true) && s'.has == s.has && s'.file == s.file
    && (forall i :: FirstFree(s.slots, i) ==>
          s'.slots == s.slots[i := Busy(peer, hash, Some(0), now, [])] && get == Some(hash))
    && ((forall i :: 0 <= i < |s.slots| ==> s.slots[i].Busy?) ==> s'.slots == s.slots && get == None)
  }

  /** What `peer` is asked for next: the first chunk on offer, and nothing if there is none. */
  ghost predicate AsksNext(s: State, s': State, peer: int, now: int, get: Option<Key>)
    requires s.request.Some?
  {
    || (exists m :: FirstOnOffer(s, peer, m) && Asked(s, s', peer, m, now, get))
    || (&& NothingOnOffer(s, peer) && get == None
        && s' == s.(connections := s'.connections) && Marked(s.connections, s'.connections, peer, false))
  }

  // --------------------------------------------------------------------- one pick

  lemma {:induction false} OfferedIff(connections: seq<Connection>, peer: int, h: Key)
    ensures h in OfferedBy(connections, peer) <==> Lists(connections, peer, h)
    decreases |connections|
  {
    if connections != [] {
      var n := |connections| - 1;
      OfferedIff(connections[..n], peer, h);
      if Lists(connections[..n], peer, h) {
        var j :| 0 <= j < n && connections[..n][j].peer == peer && h in connections[..n][j].hashes;
        assert connections[j].peer == peer && h in connections[j].hashes;
      }
      if j :| 0 <= j < n && connections[j].peer == peer && h in connections[j].hashes {
        assert connections[..n][j] == connections[j];
      }
    }
  }

  lemma MarksOnce(s: State, peer: int, working: bool)
    requires ConnectionsOk(s.connections)
    ensures var s' := MarkPeer(s, peer, working);
            s' == s.(connections := s'.connections) && Marked(s.connections, s'.connections, peer, working)
  {
    var i := Find(s.connections, At(peer));
    assert IsFirst(s.connections, At(peer), i);
    if i < |s.connections| {
      assert At(peer)(s.connections[i]);
    } else {
      forall j | 0 <= j < |s.connections|
        ensures s.connections[j].peer != peer
      {
        assert !At(peer)(s.connections[j]);
      }
    }
  }

  lemma VacantIsFirstFree(slots: seq<Slot>)
    ensures var i := Find(slots, Vacant());
            if i < |slots| then FirstFree(slots, i) else forall j :: 0 <= j < |slots| ==> slots[j].Busy?
  {
    var i := Find(slots, Vacant());
    assert IsFirst(slots, Vacant(), i);
    forall j | 0 <= j < i
      ensures slots[j].Busy?
    {
      assert !Vacant()(slots[j]);
    }
    if i < |slots| {
      assert Vacant()(slots[i]);
    }
  }

  lemma WantedIsOnOffer(s: State, peer: int, offer: seq<Key>)
    requires s.request.Some? && forall h :: h in offer <==> Lists(s.connections, peer, h)
    ensures var m := Find(s.request.value, Wanted(offer));
            if m < |s.request.value| then FirstOnOffer(s, peer, m) else NothingOnOffer(s, peer)
  {
    hide Lists;
    var chunks := s.request.value;
    var m := Find(chunks, Wanted(offer));
    assert IsFirst(chunks, Wanted(offer), m);
    forall i | 0 <= i < |chunks|
      ensures OnOffer(s, peer, i) <==> Wanted(offer)(chunks[i])
    {
    }
  }

  lemma PickAsks(s: State, peer: int, offer: seq<Key>, now: int)
    requires Inv(s) && s.request.Some? && Unused(s, peer)
    requires forall h :: h in offer <==> Lists(s.connections, peer, h)
    ensures AsksNext(s, Pick(s, peer, offer, now), peer, now, PickGet(s, offer))
  {
    hide RequestOk, SlotsOk, StartDownload, MarkPeer, Lists, Marked;
    var chunks := s.request.value;
    var m := Find(chunks, Wanted(offer));
    WantedIsOnOffer(s, peer, offer);
    if m == |chunks| {
      MarksOnce(s, peer, false);
    } else {
      var picked := WithChunk(s, m, chunks[m].(state := Receiving));
      MarksOnce(picked, peer, true);
      StartsFresh(MarkPeer(picked, peer, true), peer, chunks[m].hash, now);
      VacantIsFirstFree(s.slots);
      assert Asked(s, Pick(s, peer, offer, now), peer, m, now, PickGet(s, offer));
    }
  }

  // --------------------------------------------------------------------- an offer

  /** What is known after an offer: the list of a known peer is replaced where it stands, a new peer
      goes in front of all others and is idle. */
  ghost predicate Heard(before: seq<Connection>, after: seq<Connection>, peer: int, hashes: seq<Key>)
  {
    || (&& (forall j :: 0 <= j < |before| ==> before[j].peer != peer)
        && |after| == |before| + 1 && after[0] == Connection(peer, false, hashes) && after[1..] == before)
    || (&& (exists j :: 0 <= j < |before| && before[j].peer == peer) && |after| == |before|
        && forall j :: 0 <= j < |before| ==>
             after[j] == if before[j].peer == peer then before[j].(hashes := hashes) else before[j])
  }

  lemma UpdateIsHeard(s: State, peer: int, hashes: seq<Key>)
    requires ConnectionsOk(s.connections)
    ensures var s' := UpdateConnections(s, peer, hashes);
            && s' == s.(connections := s'.connections) && Heard(s.connections, s'.connections, peer, hashes)
            && forall h :: h in hashes <==> Lists(s'.connections, peer, h)
  {
    var i := Find(s.connections, At(peer));
    assert IsFirst(s.connections, At(peer), i);
    var after := UpdateConnections(s, peer, hashes).connections;
    if i < |s.connections| {
      assert At(peer)(s.connections[i]);
      assert after[i].peer == peer && after[i].hashes == hashes;
    } else {
      forall j | 0 <= j < |s.connections|
        ensures s.connections[j].peer != peer
      {
        assert !At(peer)(s.connections[j]);
      }
      assert after[0].peer == peer && after[0].hashes == hashes;
    }
  }

  /** The peer of an offer is asked for the first chunk on offer, if any. */
  lemma OfferAsks(s: State, peer: int, hashes: seq<Key>, now: int)
    requires Inv(s) && s.request.Some? && Expected(s, IHave(peer, hashes, now))
    ensures exists known ::
              && Heard(s.connections, known, peer, hashes)
              && AsksNext(s.(connections := known), OnIHave(s, peer, hashes, now), peer, now, PickGet(s, hashes))
  {
    hide RequestOk, SlotsOk, Pick, Lists, Heard, UpdateConnections, AsksNext;
    UpdateIsHeard(s, peer, hashes);
    UpdateKeepsInv(s, peer, hashes);
    NoSlotMeansUnused(s, peer);
    var heard := UpdateConnections(s, peer, hashes);
    assert PickGet(heard, hashes) == PickGet(s, hashes);
    PickAsks(heard, peer, hashes, now);
  }

  /** Without a request it is only remembered. */
  lemma OfferWithoutRequest(s: State, peer: int, hashes: seq<Key>, now: int)
    requires ConnectionsOk(s.connections) && s.request.None?
    ensures var s' := OnIHave(s, peer, hashes, now);
            && s' == s.(connections := s'.connections) && Heard(s.connections, s'.connections, peer, hashes)
  {
    hide UpdateConnections, Heard;
    UpdateIsHeard(s, peer, hashes);
  }

  /** Of two peers heard of for the first time, the later one comes first. */
  lemma LaterPeerIsFirst(s: State, first: int, second: int, one: seq<Key>, two: seq<Key>)
    requires first != second && forall j :: 0 <= j < |s.connections| ==> s.connections[j].peer !in {first, second}
    ensures UpdateConnections(UpdateConnections(s, first, one), second, two).connections ==
            [Connection(second, false, two), Connection(first, false, one)] + s.connections
  {
    var s1 := UpdateConnections(s, first, one);
    assert IsFirst(s.connections, At(first), Find(s.connections, At(first)));
    assert s1.connections == [Connection(first, false, one)] + s.connections;
    assert IsFirst(s1.connections, At(second), Find(s1.connections, At(second)));
  }

  // ------------------------------------------------------------------ a full chunk

  /** Once chunk `k` is full with `bytes`: it is owned, written out and announced if its SHA-1 is right,
      and not started otherwise; slot `i` is free. */
  function Verified(s: State, i: nat, k: nat, bytes: seq<byte>): State
    requires s.request.Some? && k < |s.request.value| && i < |s.slots| && |bytes| == BT_CHUNK_SIZE
  {
    var hash := s.request.value[k].hash;
    var right := Fips180.Digest(bytes) == hash;
    State(
      Some(s.request.value[k := Chunk(hash, if right then Owned else NotStarted, false, [])]),
      s.slots[i := Free],
      s.connections,
      if right && hash !in s.has then s.has + [hash] else s.has,
      if right then s.file[k := bytes] else s.file)
  }

  lemma VerifiedIs(s: State, i: nat, k: nat, bytes: seq<byte>)
    requires Inv(s) && s.request.Some? && k < |s.request.value| && i < |s.slots| && |bytes| == BT_CHUNK_SIZE
    requires s.slots[i].Busy? && Feeds(s.slots[i], s.request.value[k])
    requires s.slots[i].taken <= bytes
    ensures var c := s.request.value[k];
            var full := WithChunk(s, k, c.(hasBuffer := true, bytes := bytes));
            AbortDownload(SaveChunk(full, k), s.slots[i].peer) == Verified(s, i, k, bytes)
    ensures Inv(Verified(s, i, k, bytes)) && Unused(Verified(s, i, k, bytes), s.slots[i].peer)
  {
    hide RequestOk, ConnectionsOk, SlotsOk, Fips180.Digest;
    var c := s.request.value[k];
    var full := WithChunk(s, k, c.(hasBuffer := true, bytes := bytes));
    HeldSlot(s, i);
    assert full.request.value[k := Chunk(c.hash, NotStarted, false, [])] ==
           s.request.value[k := Chunk(c.hash, NotStarted, false, [])];
    assert full.request.value[k := Chunk(c.hash, Owned, false, [])] ==
           s.request.value[k := Chunk(c.hash, Owned, false, [])];
    var more := bytes[|s.slots[i].taken|..];
    assert c.bytes + more == bytes;
    FullKeepsInv(s, i, k, more);
    FreedIsUnused(s, i, Verified(s, i, k, bytes));
  }

  /** DATA that fills the chunk of slot `i` frees the slot, and its peer is asked for the first chunk on
      offer, the same one again if that did not verify; a peer that has nothing to offer is idle. */
  lemma FullChunkAsks(s: State, i: nat, k: nat, num: nat, payload: seq<byte>, now: int)
    requires Inv(s) && i < |s.slots| && s.slots[i].Busy? && num >= 1
    requires k < |Chunks(s)| && Chunks(s)[k].hash == s.slots[i].hash
    requires s.slots[i].last == Some(num - 1) || s.slots[i].last == Some(num)
    requires |s.slots[i].taken + Receiver.Clamp(payload)| == BT_CHUNK_SIZE
    ensures var peer, verified := s.slots[i].peer, Verified(s, i, k, s.slots[i].taken + Receiver.Clamp(payload));
            var r := OnData(s, peer, num, payload, now);
            r.outcome.Ok? && AsksNext(verified, r.outcome.s, peer, now, DataGet(s, peer, num, payload, now))
    ensures exists j :: FirstFree(Verified(s, i, k, s.slots[i].taken + Receiver.Clamp(payload)).slots, j)
  {
    hide RequestOk, SlotsOk, ConnectionsOk, Pick, SaveChunk, Receiver.Clamp, AbortDownload, OfferedBy, Lists, AsksNext,
      PickGet, Feeds;
    var peer, bytes := s.slots[i].peer, s.slots[i].taken + Receiver.Clamp(payload);
    HeldSlot(s, i);
    var found := SlotAndChunk(s, i);
    assert found == k by { SameName(s, found, k); }
    FeedsIs(s.slots[i], Chunks(s)[k]);
    var slot := s.slots[i].(last := Some(num), lastTime := now);
    var tracked := s.(slots := s.slots[i := slot]);
    TrackedKeepsInv(s, i, k, num, now);
    assert Feeds(slot, Chunks(s)[k]) by { StillFeeds(s, i, k, num, now); }
    VerifiedIs(tracked, i, k, bytes);
    var verified := Verified(s, i, k, bytes);
    assert tracked.slots[i := Free] == s.slots[i := Free];
    assert Verified(tracked, i, k, bytes) == verified;
    forall h
      ensures h in OfferedBy(s.connections, peer) <==> Lists(s.connections, peer, h)
    {
      OfferedIff(s.connections, peer, h);
    }
    PickAsks(verified, peer, OfferedBy(s.connections, peer), now);
    VacantIsFirstFree(verified.slots);
    assert verified.slots[i].Free?;
  }

  lemma SameName(s: State, k: nat, m: nat)
    requires Inv(s) && k < |Chunks(s)| && m < |Chunks(s)| && Chunks(s)[k].hash == Chunks(s)[m].hash
    ensures k == m
  {
    hide SlotsOk, ConnectionsOk, ChunkOk;
  }

  lemma FeedsIs(slot: Slot, c: Chunk)
    requires slot.Busy? && Feeds(slot, c)
    ensures c.bytes == slot.taken && c.state == Receiving && slot.last.Some?
  {
  }

  lemma StillFeeds(s: State, i: nat, k: nat, num: nat, now: int)
    requires i < |s.slots| && s.slots[i].Busy? && k < |Chunks(s)| && Feeds(s.slots[i], Chunks(s)[k]) && num >= 1
    ensures Feeds(s.slots[i].(last := Some(num), lastTime := now), Chunks(s)[k])
  {
  }

  // ------------------------------------------------------------------- a timeout

  /** Slot `i` is freed, its chunk `k` put back, and entry `j` of its peer removed. */
  function Forgotten(s: State, i: nat, k: nat, j: nat): State
    requires s.request.Some? && i < |s.slots| && k < |s.request.value| && j < |s.connections|
  {
    s.(request := Some(s.request.value[k := Chunk(s.request.value[k].hash, NotStarted, false, [])]),
       slots := s.slots[i := Free],
       connections := s.connections[..j] + s.connections[j + 1..])
  }

  /** Entry `q` is the first idle one whose peer is known to have a chunk not started. */
  ghost predicate FirstToHelp(s: State, q: int)
  {
    && 0 <= q < |s.connections| && CanHelp(s, s.connections[q])
    && forall j :: 0 <= j < q ==> !CanHelp(s, s.connections[j])
  }

  ghost predicate CanHelp(s: State, c: Connection)
  {
    !c.working && !NothingOnOffer(s, c.peer)
  }

  /** Slot `i` was silent for longer than four timeouts, and no slot before it. */
  ghost predicate FirstSilent(s: State, i: int, now: int, rto: int)
  {
    && 0 <= i < |s.slots| && s.slots[i].Busy? && now - s.slots[i].lastTime > ABORT_COEFF * rto
    && forall j :: 0 <= j < i && s.slots[j].Busy? ==> now - s.slots[j].lastTime <= ABORT_COEFF * rto
  }

  lemma SilentIsExpired(s: State, i: nat, now: int, rto: int)
    requires FirstSilent(s, i, now, rto)
    ensures Find(s.slots, Expired(now, rto)) == i
  {
    FirstIsFound(s.slots, Expired(now, rto), i);
  }

  lemma ForgetIs(s: State, i: nat, k: nat, j: nat, now: int, rto: int)
    requires Inv(s) && FirstSilent(s, i, now, rto) && s.request.Some?
    requires k < |Chunks(s)| && Chunks(s)[k].hash == s.slots[i].hash
    requires j < |s.connections| && s.connections[j].peer == s.slots[i].peer
    ensures ForgetPeer(s, now, rto) == (Forgotten(s, i, k, j), true) && Inv(Forgotten(s, i, k, j))
  {
    hide RequestOk, SlotsOk, ConnectionsOk;
    SilentIsExpired(s, i, now, rto);
    ForgetKeepsInv(s, now, rto);
    HeldSlot(s, i);
    SlotHasConnection(s, i);
    var found := SlotAndChunk(s, i);
    SameName(s, found, k);
    SamePeer(s, Find(s.connections, At(s.slots[i].peer)), j);
  }

  lemma SamePeer(s: State, i: nat, j: nat)
    requires Inv(s) && i < |s.connections| && j < |s.connections|
    requires IsFirst(s.connections, At(s.connections[j].peer), i)
    ensures i == j
  {
    hide RequestOk, SlotsOk;
    assert At(s.connections[j].peer)(s.connections[i]);
  }

  lemma UsefulCanHelp(s: State, q: nat)
    requires s.request.Some? && q < |s.connections|
    ensures Useful(s.connections, s.request.value)(s.connections[q]) <==> CanHelp(s, s.connections[q])
  {
    hide Lists, FirstOnOffer;
    var peer := s.connections[q].peer;
    forall h
      ensures h in OfferedBy(s.connections, peer) <==> Lists(s.connections, peer, h)
    {
      OfferedIff(s.connections, peer, h);
    }
    WantedIsOnOffer(s, peer, OfferedBy(s.connections, peer));
    if Find(s.request.value, Wanted(OfferedBy(s.connections, peer))) < |s.request.value| {
      var m := Find(s.request.value, Wanted(OfferedBy(s.connections, peer)));
      assert OnOffer(s, peer, m) by { FirstIsOnOffer(s, peer, m); }
    }
  }

  lemma FirstIsOnOffer(s: State, peer: int, m: int)
    requires FirstOnOffer(s, peer, m)
    ensures 0 <= m < |Chunks(s)| && OnOffer(s, peer, m)
  {
  }

  lemma TakeOverAsks(s: State, now: int)
    requires Inv(s) && s.request.Some?
    ensures || (exists q :: FirstToHelp(s, q)
                  && AsksNext(s, TakeOver(s, now), s.connections[q].peer, now, Sent(TakeOverGet(s)))
                  && (TakeOverGet(s).Some? ==> TakeOverGet(s).value.0 == s.connections[q].peer))
            || ((forall q :: 0 <= q < |s.connections| ==> !CanHelp(s, s.connections[q]))
                && TakeOver(s, now) == s && TakeOverGet(s) == None)
  {
    hide Inv, Pick, PickGet, OfferedBy, Useful, CanHelp, AsksNext, Lists;
    var useful := Useful(s.connections, s.request.value);
    var q := Find(s.connections, useful);
    assert IsFirst(s.connections, useful, q);
    forall j | 0 <= j < |s.connections|
      ensures useful(s.connections[j]) <==> CanHelp(s, s.connections[j])
    {
      UsefulCanHelp(s, j);
    }
    if q < |s.connections| {
      assert useful(s.connections[q]);
      var peer := s.connections[q].peer;
      UsefulIsIdle(s, q);
      IdleIsUnused(s, q);
      forall h
        ensures h in OfferedBy(s.connections, peer) <==> Lists(s.connections, peer, h)
      {
        OfferedIff(s.connections, peer, h);
      }
      PickAsks(s, peer, OfferedBy(s.connections, peer), now);
      assert FirstToHelp(s, q);
    }
  }

  /** The hash in a GET to some peer. */
  function Sent(get: Option<(int, Key)>): Option<Key>
  {
    if get.None? then None else Some(get.value.1)
  }

  /** A timeout hands the chunk on: of the peers that remain, the first idle one that is known to have a
      chunk not started is sent a GET for its first one, and has a fresh slot for it; when there is none,
      nobody is. */
  lemma TimeoutAsks(s: State, i: nat, k: nat, j: nat, now: int, rto: int)
    requires Inv(s) && FirstSilent(s, i, now, rto)
    requires k < |Chunks(s)| && Chunks(s)[k].hash == s.slots[i].hash
    requires j < |s.connections| && s.connections[j].peer == s.slots[i].peer
    ensures s.request.Some?
    ensures var left, s', get := Forgotten(s, i, k, j), OnTick(s, now, rto), TickGet(s, now, rto);
            if exists q :: FirstToHelp(left, q) then
              exists q, m :: FirstToHelp(left, q) && FirstOnOffer(left, left.connections[q].peer, m)
                             && Asked(left, s', left.connections[q].peer, m, now, Sent(get))
                             && get == Some((left.connections[q].peer, left.request.value[m].hash))
            else s' == left && get == None
  {
    hide Inv, TakeOver, TakeOverGet, CanHelp, OnOffer;
    ForgetIs(s, i, k, j, now, rto);
    var left := Forgotten(s, i, k, j);
    TakeOverAsks(left, now);
    if q :| FirstToHelp(left, q) && AsksNext(left, TakeOver(left, now), left.connections[q].peer, now,
                                             Sent(TakeOverGet(left))) {
      HelperOffers(left, q);
      VacantIsFirstFree(left.slots);
      assert left.slots[i].Free?;
    }
  }

  lemma HelperOffers(s: State, q: int)
    requires FirstToHelp(s, q)
    ensures !NothingOnOffer(s, s.connections[q].peer)
  {
  }

  // ---------------------------------------------------------------- the output file

  /** The output file of a request under way holds exactly the owned chunks. */
  ghost predicate FileIsOwned(s: State)
  {
    s.request.Some? ==> forall k: nat :: k in s.file <==> k < |Chunks(s)| && Chunks(s)[k].state == Owned
  }

  ghost predicate SameOwned(s: State, s': State)
  {
    && s.request.Some? == s'.request.Some? && s'.file == s.file && |Chunks(s')| == |Chunks(s)|
    && forall k :: 0 <= k < |Chunks(s)| ==> (Chunks(s')[k].state == Owned <==> Chunks(s)[k].state == Owned)
  }

  lemma AsksNextSameOwned(s: State, s': State, peer: int, now: int, get: Option<Key>)
    requires s.request.Some? && AsksNext(s, s', peer, now, get)
    ensures SameOwned(s, s')
  {
    hide Lists, Marked;
  }

  lemma DataFileIsOwned(s: State, peer: int, num: nat, payload: seq<byte>, now: int)
    requires Inv(s) && FileIsOwned(s) && num >= 1 && OnData(s, peer, num, payload, now).outcome.Ok?
    ensures FileIsOwned(OnData(s, peer, num, payload, now).outcome.s)
  {
    hide Inv, Receiver.Clamp, AsksNext, Fips180.Digest, Pick, OfferedBy, SaveChunk, AbortDownload;
    var i := Find(s.slots, HeldBy(peer));
    assert IsFirst(s.slots, HeldBy(peer), i);
    if i < |s.slots| {
      assert HeldBy(peer)(s.slots[i]);
      var k := SlotAndChunk(s, i);
      var bytes := s.slots[i].taken + Receiver.Clamp(payload);
      if Receiver.TrackFrom(s.slots[i].last, num) == num && |bytes| == BT_CHUNK_SIZE {
        FullChunkAsks(s, i, k, num, payload, now);
        AsksNextSameOwned(Verified(s, i, k, bytes), OnData(s, peer, num, payload, now).outcome.s, peer, now,
                          DataGet(s, peer, num, payload, now));
      }
    }
  }

  lemma TickFileIsOwned(s: State, now: int, rto: int)
    requires Inv(s) && FileIsOwned(s)
    ensures FileIsOwned(OnTick(s, now, rto))
  {
    hide Inv, AsksNext, TakeOver, TakeOverGet, CanHelp, AbortDownload;
    ForgetKeepsInv(s, now, rto);
    var i := Find(s.slots, Expired(now, rto));
    assert IsFirst(s.slots, Expired(now, rto), i);
    if i < |s.slots| {
      assert Expired(now, rto)(s.slots[i]);
      var k := SlotAndChunk(s, i);
      AbortTouchesSlotsOnly(s, s.slots[i].peer);
      var left := ForgetPeer(s, now, rto).0;
      TakeOverAsks(left, now);
      if q :| FirstToHelp(left, q)
              && AsksNext(left, TakeOver(left, now), left.connections[q].peer, now, Sent(TakeOverGet(left))) {
        AsksNextSameOwned(left, TakeOver(left, now), left.connections[q].peer, now, Sent(TakeOverGet(left)));
      }
    }
  }

  lemma InvConnections(s: State)
    requires Inv(s)
    ensures ConnectionsOk(s.connections)
  {
  }

  lemma StepFileIsOwned(s: State, e: Event)
    requires Inv(s) && FileIsOwned(s) && Expected(s, e) && Step(s, e).Ok?
    ensures FileIsOwned(Step(s, e).s)
  {
    hide Inv, OnData, AbortDownload, OnTick, AsksNext, Heard, OnIHave;
    match e
    case UserGet(hashes) =>
    case IHave(peer, hashes, now) =>
      if s.request.Some? {
        OfferAsks(s, peer, hashes, now);
        var known :| Heard(s.connections, known, peer, hashes) &&
          AsksNext(s.(connections := known), OnIHave(s, peer, hashes, now), peer, now, PickGet(s, hashes));
        AsksNextSameOwned(s.(connections := known), OnIHave(s, peer, hashes, now), peer, now, PickGet(s, hashes));
      } else {
        assert ConnectionsOk(s.connections) by { InvConnections(s); }
        OfferWithoutRequest(s, peer, hashes, now);
      }
    case Data(peer, num, payload, now) => DataFileIsOwned(s, peer, num, payload, now);
    case Denied(peer) => AbortTouchesSlotsOnly(s, peer);
    case Tick(now, rto) => TickFileIsOwned(s, now, rto);
    case EndOfPass =>
  }

  /** In every run the output file of the request under way holds exactly its owned chunks. */
  lemma {:induction false} RunFileIsOwned(s: State, events: seq<Event>)
    requires Inv(s) && FileIsOwned(s) && Possible(s, events)
    ensures FileIsOwned(Run(s, events))
    decreases |events|
  {
    if events != [] {
      hide Inv, FileIsOwned, Step, Expected;
      StepKeepsInv(s, events[0]);
      StepFileIsOwned(s, events[0]);
      RunFileIsOwned(Step(s, events[0]).s, events[1..]);
    }
  }
}
