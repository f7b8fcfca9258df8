/**
  What every transition of `Scheduler` keeps, and what that means for whole runs.
 */
module SchedulerInvariant {
  import opened Wrappers
  import opened Common
  import opened Scheduler
  import Fips180
  import Receiver

  // -------------------------------------------------------------- the invariant

  ghost predicate ChunkOk(c: Chunk, k: nat, has: seq<Key>, file: map<nat, seq<byte>>)
  {
    match c.state
    case Owned => !c.hasBuffer && c.bytes == [] && c.hash in has && k in file
                  && |file[k]| == BT_CHUNK_SIZE && Fips180.Digest(file[k]) == c.hash
    case Receiving => |c.bytes| < BT_CHUNK_SIZE && (!c.hasBuffer ==> c.bytes == [])
    case NotStarted => !c.hasBuffer && c.bytes == []
  }

  ghost predicate RequestOk(chunks: seq<Chunk>, has: seq<Key>, file: map<nat, seq<byte>>)
  {
    && (forall k :: 0 <= k < |chunks| ==> ChunkOk(chunks[k], k, has, file))
    && forall k, m :: 0 <= k < m < |chunks| ==> chunks[k].hash != chunks[m].hash
  }

  ghost predicate ConnectionsOk(connections: seq<Connection>)
  {
    && (forall i :: 0 <= i < |connections| ==> connections[i].peer > 0)
    && forall i, j :: 0 <= i < j < |connections| ==> connections[i].peer != connections[j].peer
  }

  /** The chunk a slot works for is marked as received, and its buffer holds exactly the bytes that
      this slot has taken. The slot has a record, which stands at zero before the first packet. */
  ghost predicate Feeds(slot: Slot, c: Chunk)
    requires slot.Busy?
  {
    && c.hash == slot.hash && c.state == Receiving && c.bytes == slot.taken
    && slot.last.Some? && (slot.last == Some(0) ==> slot.taken == [])
  }

  ghost predicate Works(peer: int, c: Connection)
  {
    c.peer == peer && c.working
  }

  ghost predicate SlotOk(slot: Slot, chunks: seq<Chunk>, connections: seq<Connection>)
  {
    slot.Busy? ==>
      && slot.peer > 0
      && (exists k :: 0 <= k < |chunks| && Feeds(slot, chunks[k]))
      && (exists j :: 0 <= j < |connections| && Works(slot.peer, connections[j]))
  }

  ghost predicate SlotsOk(slots: seq<Slot>, chunks: seq<Chunk>, connections: seq<Connection>)
  {
    && (forall i :: 0 <= i < |slots| ==> SlotOk(slots[i], chunks, connections))
    && (forall i, j :: 0 <= i < j < |slots| && slots[i].Busy? && slots[j].Busy? ==>
          slots[i].peer != slots[j].peer && slots[i].hash != slots[j].hash)
  }

  function Chunks(s: State): seq<Chunk>
  {
    if s.request.None? then [] else s.request.value
  }

  ghost predicate Inv(s: State)
  {
    RequestOk(Chunks(s), s.has, s.file) && ConnectionsOk(s.connections) && SlotsOk(s.slots, Chunks(s), s.connections)
  }

  // ------------------------------------------------------- what small steps keep

  lemma {:induction false} FirstIs<T>(s: seq<T>, p: T -> bool, i: nat)
    requires i < |s| && p(s[i]) && forall j :: 0 <= j < |s| && p(s[j]) ==> j == i
    ensures Find(s, p) == i
  {
    var f := Find(s, p);
    assert IsFirst(s, p, f);
  }

  ghost predicate Unused(s: State, peer: int)
  {
    forall i :: 0 <= i < |s.slots| && s.slots[i].Busy? ==> s.slots[i].peer != peer
  }

  ghost predicate Unfed(s: State, hash: Key)
  {
    forall i :: 0 <= i < |s.slots| && s.slots[i].Busy? ==> s.slots[i].hash != hash
  }

  lemma NoSlotMeansUnused(s: State, peer: int)
    ensures Find(s.slots, HeldBy(peer)) == |s.slots| <==> Unused(s, peer)
  {
    var i := Find(s.slots, HeldBy(peer));
    assert IsFirst(s.slots, HeldBy(peer), i);
    if i == |s.slots| {
      forall j | 0 <= j < |s.slots| && s.slots[j].Busy?
        ensures s.slots[j].peer != peer
      {
        assert !HeldBy(peer)(s.slots[j]);
      }
    } else {
      assert HeldBy(peer)(s.slots[i]);
    }
  }

  lemma FreeingKeepsInv(s: State, i: nat)
    requires Inv(s) && i < |s.slots|
    ensures Inv(s.(slots := s.slots[i := Free]))
  {
    hide RequestOk, ConnectionsOk;
    var slots := s.slots[i := Free];
    forall j | 0 <= j < |slots|
      ensures SlotOk(slots[j], Chunks(s), s.connections)
    {
      assert SlotOk(s.slots[j], Chunks(s), s.connections);
    }
  }

  lemma AbortKeepsInv(s: State, peer: int)
    requires Inv(s)
    ensures var s' := AbortDownload(s, peer); Inv(s') && Unused(s', peer)
    ensures var i := Find(s.slots, HeldBy(peer)); i < |s.slots| ==> Unfed(AbortDownload(s, peer), s.slots[i].hash)
  {
    var i := Find(s.slots, HeldBy(peer));
    assert IsFirst(s.slots, HeldBy(peer), i);
    NoSlotMeansUnused(s, peer);
    if i < |s.slots| {
      hide RequestOk, ConnectionsOk, SlotOk;
      assert HeldBy(peer)(s.slots[i]);
      FreeingKeepsInv(s, i);
    }
  }

  /** A chunk that no slot feeds may be replaced by any sound one of the same name. */
  lemma ChunkKeepsInv(s: State, k: nat, c: Chunk, has: seq<Key>, file: map<nat, seq<byte>>)
    requires Inv(s) && s.request.Some? && k < |s.request.value|
    requires c.hash == s.request.value[k].hash && Unfed(s, c.hash)
    requires ChunkOk(c, k, has, file)
    requires forall h :: h in s.has ==> h in has
    requires forall m :: m in s.file && m != k ==> m in file && file[m] == s.file[m]
    ensures Inv(WithChunk(s, k, c).(has := has, file := file))
  {
    var chunks := s.request.value[k := c];
    forall m | 0 <= m < |chunks|
      ensures ChunkOk(chunks[m], m, has, file)
    {
      assert ChunkOk(s.request.value[m], m, s.has, s.file);
    }
    hide ChunkOk;
    forall i | 0 <= i < |s.slots|
      ensures SlotOk(s.slots[i], chunks, s.connections)
    {
      assert SlotOk(s.slots[i], s.request.value, s.connections);
      if s.slots[i].Busy? {
        var m :| 0 <= m < |s.request.value| && Feeds(s.slots[i], s.request.value[m]);
        assert Feeds(s.slots[i], chunks[m]);
      }
    }
  }

  /** Changing a connection keeps what slots need unless its peer holds one and is set idle. */
  lemma ConnectionKeepsInv(s: State, j: nat, c: Connection)
    requires Inv(s) && j < |s.connections| && c.peer == s.connections[j].peer
    requires c.working || !s.connections[j].working || Unused(s, c.peer)
    ensures Inv(s.(connections := s.connections[j := c]))
  {
    hide RequestOk, Feeds;
    var connections := s.connections[j := c];
    forall i | 0 <= i < |s.slots|
      ensures SlotOk(s.slots[i], Chunks(s), connections)
    {
      assert SlotOk(s.slots[i], Chunks(s), s.connections);
      if s.slots[i].Busy? {
        var m :| 0 <= m < |s.connections| && Works(s.slots[i].peer, s.connections[m]);
        assert Works(s.slots[i].peer, connections[m]);
      }
    }
  }

  lemma MarkKeepsInv(s: State, peer: int, working: bool)
    requires Inv(s) && (working || Unused(s, peer))
    ensures var s' := MarkPeer(s, peer, working);
            && Inv(s') && s'.slots == s.slots && s'.request == s.request
            && |s'.connections| == |s.connections|
            && (forall j :: 0 <= j < |s.connections| ==> s'.connections[j].peer == s.connections[j].peer)
            && (working && Find(s.connections, At(peer)) < |s.connections| ==> Working(s', peer))
  {
    var i := Find(s.connections, At(peer));
    assert IsFirst(s.connections, At(peer), i);
    if i < |s.connections| {
      hide RequestOk, SlotsOk;
      assert At(peer)(s.connections[i]);
      ConnectionKeepsInv(s, i, s.connections[i].(working := working));
      assert working ==> Works(peer, MarkPeer(s, peer, working).connections[i]);
    }
  }

  ghost predicate Working(s: State, peer: int)
  {
    exists j :: 0 <= j < |s.connections| && Works(peer, s.connections[j])
  }

  lemma UpdateKeepsInv(s: State, peer: int, hashes: seq<Key>)
    requires Inv(s) && peer > 0
    ensures var s' := UpdateConnections(s, peer, hashes);
            && Inv(s') && s'.slots == s.slots && s'.request == s.request
            && Find(s'.connections, At(peer)) < |s'.connections|
  {
    hide RequestOk, Feeds;
    var i := Find(s.connections, At(peer));
    assert IsFirst(s.connections, At(peer), i);
    var s' := UpdateConnections(s, peer, hashes);
    if i < |s.connections| {
      assert At(peer)(s.connections[i]);
      ConnectionKeepsInv(s, i, s.connections[i].(hashes := hashes));
      FirstExists(s'.connections, At(peer), i);
    } else {
      forall j | 0 <= j < |s.connections|
        ensures s.connections[j].peer != peer
      {
        assert !At(peer)(s.connections[j]);
      }
      forall k | 0 <= k < |s.slots|
        ensures SlotOk(s.slots[k], Chunks(s), s'.connections)
      {
        assert SlotOk(s.slots[k], Chunks(s), s.connections);
        if s.slots[k].Busy? {
          var m :| 0 <= m < |s.connections| && Works(s.slots[k].peer, s.connections[m]);
          assert Works(s.slots[k].peer, s'.connections[m + 1]);
        }
      }
      FirstExists(s'.connections, At(peer), 0);
    }
  }

  lemma FirstExists<T>(s: seq<T>, p: T -> bool, i: nat)
    requires i < |s| && p(s[i])
    ensures Find(s, p) < |s|
  {
    assert IsFirst(s, p, Find(s, p));
  }

  lemma FirstIsFound<T>(s: seq<T>, p: T -> bool, i: nat)
    requires IsFirst(s, p, i)
    ensures Find(s, p) == i
  {
    assert IsFirst(s, p, Find(s, p));
  }

  /** For a peer without a slot, tracking packet 0 reaches the new one. */
  lemma StartsFresh(s: State, peer: int, hash: Key, now: int)
    requires Unused(s, peer)
    ensures var i := Find(s.slots, Vacant());
            StartDownload(s, peer, hash, now) ==
            if i == |s.slots| then s else s.(slots := s.slots[i := Busy(peer, hash, Some(0), now, [])])
  {
    var i := Find(s.slots, Vacant());
    if i < |s.slots| {
      FirstIsFound(s.slots[i := Busy(peer, hash, None, now, [])], HeldBy(peer), i);
    }
  }

  /** A new slot for a working peer that has none, on a chunk that no other slot feeds. */
  lemma StartKeepsInv(s: State, peer: int, k: nat, now: int)
    requires Inv(s) && peer > 0 && Unused(s, peer) && Working(s, peer)
    requires k < |Chunks(s)| && Unfed(s, Chunks(s)[k].hash)
    requires Chunks(s)[k].state == Receiving && Chunks(s)[k].bytes == []
    ensures Inv(StartDownload(s, peer, Chunks(s)[k].hash, now))
  {
    hide RequestOk, ConnectionsOk, Works, StartDownload, TrackPacket;
    StartsFresh(s, peer, Chunks(s)[k].hash, now);
    var s' := StartDownload(s, peer, Chunks(s)[k].hash, now);
    var i := Find(s.slots, Vacant());
    assert IsFirst(s.slots, Vacant(), i);
    if i < |s.slots| {
      assert Feeds(s'.slots[i], Chunks(s)[k]);
      forall j | 0 <= j < |s'.slots|
        ensures SlotOk(s'.slots[j], Chunks(s), s.connections)
      {
        if j != i {
          assert SlotOk(s.slots[j], Chunks(s), s.connections);
        }
      }
    }
  }

  lemma PickKeepsInv(s: State, peer: int, offer: seq<Key>, now: int)
    requires Inv(s) && s.request.Some? && peer > 0 && Unused(s, peer)
    requires Find(s.connections, At(peer)) < |s.connections|
    ensures Inv(Pick(s, peer, offer, now))
  {
    hide ConnectionsOk, SlotsOk, StartDownload, MarkPeer;
    var chunks := s.request.value;
    var k := Find(chunks, Wanted(offer));
    assert IsFirst(chunks, Wanted(offer), k);
    if k == |chunks| {
      MarkKeepsInv(s, peer, false);
    } else {
      assert Wanted(offer)(chunks[k]);
      assert ChunkOk(chunks[k], k, s.has, s.file);
      NotReceivingIsUnfed(s, k);
      ChunkKeepsInv(s, k, chunks[k].(state := Receiving), s.has, s.file);
      var picked := WithChunk(s, k, chunks[k].(state := Receiving));
      assert picked == picked.(has := s.has, file := s.file);
      MarkKeepsInv(picked, peer, true);
      StartKeepsInv(MarkPeer(picked, peer, true), peer, k, now);
    }
  }

  lemma NotReceivingIsUnfed(s: State, k: nat)
    requires Inv(s) && k < |Chunks(s)| && Chunks(s)[k].state != Receiving
    ensures Unfed(s, Chunks(s)[k].hash)
  {
    forall i | 0 <= i < |s.slots| && s.slots[i].Busy?
      ensures s.slots[i].hash != Chunks(s)[k].hash
    {
      assert SlotOk(s.slots[i], Chunks(s), s.connections);
      var m :| 0 <= m < |Chunks(s)| && Feeds(s.slots[i], Chunks(s)[m]);
    }
  }

  // --------------------------------------------------------------- the DATA case

  /** The slot that DATA from `peer` goes to, and the chunk it feeds. */
  lemma SlotAndChunk(s: State, i: nat) returns (k: nat)
    requires Inv(s) && i < |s.slots| && s.slots[i].Busy?
    ensures s.request.Some? && k == Find(s.request.value, Named(s.slots[i].hash)) < |s.request.value|
    ensures Feeds(s.slots[i], s.request.value[k])
  {
    assert SlotOk(s.slots[i], Chunks(s), s.connections);
    k :| 0 <= k < |Chunks(s)| && Feeds(s.slots[i], Chunks(s)[k]);
    FirstIs(Chunks(s), Named(s.slots[i].hash), k);
  }

  /** A slot and its chunk move together. */
  lemma FeedingKeepsInv(s: State, i: nat, k: nat, slot: Slot, c: Chunk)
    requires Inv(s) && i < |s.slots| && s.slots[i].Busy? && s.request.Some? && k < |s.request.value|
    requires Feeds(s.slots[i], s.request.value[k])
    requires slot.Busy? && slot.peer == s.slots[i].peer && Feeds(slot, c) && c.hash == s.request.value[k].hash
    requires ChunkOk(c, k, s.has, s.file)
    ensures Inv(WithChunk(s, k, c).(slots := s.slots[i := slot]))
  {
    hide Works;
    var chunks, slots := s.request.value[k := c], s.slots[i := slot];
    forall m | 0 <= m < |chunks|
      ensures ChunkOk(chunks[m], m, s.has, s.file)
    {
      assert ChunkOk(s.request.value[m], m, s.has, s.file);
    }
    hide ChunkOk;
    forall j | 0 <= j < |slots|
      ensures SlotOk(slots[j], chunks, s.connections)
    {
      assert SlotOk(s.slots[j], s.request.value, s.connections);
      if j == i {
        assert Feeds(slots[j], chunks[k]);
      } else if slots[j].Busy? {
        var m :| 0 <= m < |s.request.value| && Feeds(s.slots[j], s.request.value[m]);
        assert Feeds(slots[j], chunks[m]);
      }
    }
  }

  lemma SaveChunkFreed(s: State, k: nat, peer: int)
    requires s.request.Some? && k < |s.request.value| && |s.request.value[k].bytes| == BT_CHUNK_SIZE
    ensures AbortDownload(SaveChunk(s, k), peer) == SaveChunk(AbortDownload(s, peer), k)
  {
  }

  /** A full chunk is verified; whatever comes out of that is sound once the slot is free. */
  lemma SavedKeepsInv(s: State, k: nat, bytes: seq<byte>)
    requires Inv(s) && s.request.Some? && k < |s.request.value| && |bytes| == BT_CHUNK_SIZE
    requires Unfed(s, s.request.value[k].hash)
    ensures Inv(SaveChunk(WithChunk(s, k, s.request.value[k].(hasBuffer := true, bytes := bytes)), k))
  {
    hide SlotsOk, ConnectionsOk, RequestOk, Unfed, Fips180.Digest;
    var c := s.request.value[k];
    var full := WithChunk(s, k, c.(hasBuffer := true, bytes := bytes));
    var blank := Chunk(c.hash, NotStarted, false, []);
    if Fips180.Digest(bytes) != c.hash {
      ChunkKeepsInv(s, k, blank, s.has, s.file);
      assert full.request.value[k := blank] == s.request.value[k := blank];
      assert SaveChunk(full, k) == WithChunk(s, k, blank).(has := s.has, file := s.file);
    } else {
      var owned := blank.(state := Owned);
      assert full.request.value[k := owned] == s.request.value[k := owned];
      ChunkKeepsInv(s, k, owned, if c.hash in s.has then s.has else s.has + [c.hash], s.file[k := bytes]);
    }
  }

  lemma SaveKeepsInv(s: State, i: nat, k: nat, payload: seq<byte>, now: int)
    requires Inv(s) && i < |s.slots| && s.slots[i].Busy? && s.request.Some? && k < |s.request.value|
    requires Feeds(s.slots[i], s.request.value[k]) && s.slots[i].last != Some(0)
    ensures var r := Save(s, i, k, payload, now);
            && (r.Ok? ==> Inv(r.s))
            && (r == Fault <==> |s.request.value[k].bytes| + |Receiver.Clamp(payload)| > BT_CHUNK_SIZE)
  {
    hide RequestOk, SlotsOk, ConnectionsOk, SaveChunk, Pick, OfferedBy, Receiver.Clamp;
    var c, slot := s.request.value[k], s.slots[i];
    var more := Receiver.Clamp(payload);
    if |c.bytes| + |more| < BT_CHUNK_SIZE {
      FeedingKeepsInv(s, i, k, slot.(taken := slot.taken + more), c.(hasBuffer := true, bytes := c.bytes + more));
    } else if |c.bytes| + |more| == BT_CHUNK_SIZE {
      var full := WithChunk(s, k, c.(hasBuffer := true, bytes := c.bytes + more));
      SaveChunkFreed(full, k, slot.peer);
      HeldSlot(s, i);
      AbortKeepsInv(s, slot.peer);
      var freed := AbortDownload(s, slot.peer);
      SavedKeepsInv(freed, k, c.bytes + more);
      assert AbortDownload(full, slot.peer) == WithChunk(freed, k, c.(hasBuffer := true, bytes := c.bytes + more));
      SavedKeepsPeers(AbortDownload(full, slot.peer), k, slot.peer);
      SlotHasConnection(s, i);
      PickKeepsInv(SaveChunk(AbortDownload(full, slot.peer), k), slot.peer, OfferedBy(s.connections, slot.peer), now);
    }
  }

  lemma SavedKeepsPeers(s: State, k: nat, peer: int)
    requires s.request.Some? && k < |s.request.value| && |s.request.value[k].bytes| == BT_CHUNK_SIZE
    ensures var s' := SaveChunk(s, k); s'.slots == s.slots && s'.connections == s.connections && s'.request.Some?
  {
  }

  lemma HeldSlot(s: State, i: nat)
    requires Inv(s) && i < |s.slots| && s.slots[i].Busy?
    ensures Find(s.slots, HeldBy(s.slots[i].peer)) == i
  {
    FirstIs(s.slots, HeldBy(s.slots[i].peer), i);
  }

  lemma SlotHasConnection(s: State, i: nat)
    requires Inv(s) && i < |s.slots| && s.slots[i].Busy?
    ensures s.slots[i].peer > 0
    ensures var j := Find(s.connections, At(s.slots[i].peer)); j < |s.connections| && s.connections[j].working
  {
    var peer := s.slots[i].peer;
    assert SlotOk(s.slots[i], Chunks(s), s.connections);
    var j :| 0 <= j < |s.connections| && Works(peer, s.connections[j]);
    FirstIs(s.connections, At(peer), j);
  }

  /** The buffer that DATA from `peer` would overrun. */
  ghost predicate Overruns(s: State, peer: int, num: nat, payload: seq<byte>)
  {
    exists i, k :: 0 <= i < |s.slots| && s.slots[i].Busy? && s.slots[i].peer == peer
                   && 0 <= k < |Chunks(s)| && Feeds(s.slots[i], Chunks(s)[k])
                   && Receiver.TrackFrom(s.slots[i].last, num) == num
                   && |Chunks(s)[k].bytes| + |Receiver.Clamp(payload)| > BT_CHUNK_SIZE
  }

  lemma DataKeepsInv(s: State, peer: int, num: nat, payload: seq<byte>, now: int)
    requires Inv(s) && num >= 1
    ensures var r := OnData(s, peer, num, payload, now).outcome;
            && (r.Ok? ==> Inv(r.s))
            && (r == Fault <==> Overruns(s, peer, num, payload))
  {
    hide RequestOk, SlotsOk, ConnectionsOk, Save, Receiver.Clamp, ChunkOk;
    var i := Find(s.slots, HeldBy(peer));
    assert IsFirst(s.slots, HeldBy(peer), i);
    NoSlotMeansUnused(s, peer);
    if i < |s.slots| {
      assert HeldBy(peer)(s.slots[i]);
      var slot := s.slots[i];
      var k := SlotAndChunk(s, i);
      var chunks := s.request.value;
      var last := Receiver.TrackFrom(slot.last, num);
      var slot' := slot.(last := Some(last), lastTime := now);
      var tracked := s.(slots := s.slots[i := slot']);
      ChunkIsOk(s, k);
      FeedingKeepsInv(s, i, k, slot', chunks[k]);
      assert chunks[k := chunks[k]] == chunks;
      assert WithChunk(s, k, chunks[k]).(slots := s.slots[i := slot']) == tracked;
      if num == last {
        SaveKeepsInv(tracked, i, k, payload, now);
      }
      OverrunsAt(s, i, k, num, payload);
    }
  }

  lemma ChunkIsOk(s: State, k: nat)
    requires Inv(s) && k < |Chunks(s)|
    ensures ChunkOk(Chunks(s)[k], k, s.has, s.file)
  {
  }

  lemma OverrunsAt(s: State, i: nat, k: nat, num: nat, payload: seq<byte>)
    requires Inv(s) && i < |s.slots| && s.slots[i].Busy? && k < |Chunks(s)| && Feeds(s.slots[i], Chunks(s)[k])
    ensures Overruns(s, s.slots[i].peer, num, payload) <==>
              Receiver.TrackFrom(s.slots[i].last, num) == num &&
              |Chunks(s)[k].bytes| + |Receiver.Clamp(payload)| > BT_CHUNK_SIZE
  {
    hide ChunkOk, ConnectionsOk, SlotOk, Receiver.Clamp;
  }

  // ---------------------------------------------------------------- crashed peers

  lemma RemovalKeepsInv(s: State, j: nat)
    requires Inv(s) && j < |s.connections| && Unused(s, s.connections[j].peer)
    ensures Inv(s.(connections := s.connections[..j] + s.connections[j + 1..]))
  {
    hide RequestOk, Feeds;
    var connections := s.connections[..j] + s.connections[j + 1..];
    forall i | 0 <= i < |s.slots|
      ensures SlotOk(s.slots[i], Chunks(s), connections)
    {
      assert SlotOk(s.slots[i], Chunks(s), s.connections);
      if s.slots[i].Busy? {
        var m :| 0 <= m < |s.connections| && Works(s.slots[i].peer, s.connections[m]);
        assert Works(s.slots[i].peer, connections[if m < j then m else m - 1]);
      }
    }
  }

  lemma ForgetKeepsInv(s: State, now: int, rto: int)
    requires Inv(s)
    ensures var (s', found) := ForgetPeer(s, now, rto);
            && Inv(s')
            && (found ==> s'.request.Some?)
            && (found <==> Find(s.slots, Expired(now, rto)) < |s.slots|)
  {
    hide RequestOk, SlotsOk, ConnectionsOk, Unfed, Unused;
    var i := Find(s.slots, Expired(now, rto));
    assert IsFirst(s.slots, Expired(now, rto), i);
    if i < |s.slots| {
      assert Expired(now, rto)(s.slots[i]);
      var peer, hash := s.slots[i].peer, s.slots[i].hash;
      SlotHasConnection(s, i);
      HeldSlot(s, i);
      AbortKeepsInv(s, peer);
      var freed := AbortDownload(s, peer);
      var k := SlotAndChunk(s, i);
      var blank := Chunk(hash, NotStarted, false, []);
      ChunkKeepsInv(freed, k, blank, s.has, s.file);
      var reset := WithChunk(freed, k, blank);
      assert reset == reset.(has := s.has, file := s.file);
      var j := Find(s.connections, At(peer));
      assert IsFirst(s.connections, At(peer), j);
      assert At(peer)(s.connections[j]);
      UnusedAlike(freed, reset, peer);
      RemovalKeepsInv(reset, j);
    }
  }

  lemma UnusedAlike(s: State, s': State, peer: int)
    requires Unused(s, peer) && s'.slots == s.slots
    ensures Unused(s', peer)
  {
  }

  lemma TakeOverKeepsInv(s: State, now: int)
    requires Inv(s) && s.request.Some?
    ensures Inv(TakeOver(s, now))
  {
    hide RequestOk, Pick, OfferedBy;
    var useful := Useful(s.connections, s.request.value);
    var j := Find(s.connections, useful);
    assert IsFirst(s.connections, useful, j);
    if j < |s.connections| {
      assert useful(s.connections[j]);
      var peer := s.connections[j].peer;
      IdleIsUnused(s, j);
      FirstExists(s.connections, At(peer), j);
      PickKeepsInv(s, peer, OfferedBy(s.connections, peer), now);
    }
  }

  /** The search after a crash looks at the mark only, and the mark can be trusted. */
  lemma IdleIsUnused(s: State, j: nat)
    requires Inv(s) && j < |s.connections| && !s.connections[j].working
    ensures Unused(s, s.connections[j].peer)
  {
    hide RequestOk, Feeds;
    forall i | 0 <= i < |s.slots| && s.slots[i].Busy?
      ensures s.slots[i].peer != s.connections[j].peer
    {
      assert SlotOk(s.slots[i], Chunks(s), s.connections);
      var m :| 0 <= m < |s.connections| && Works(s.slots[i].peer, s.connections[m]);
    }
  }

  // ----------------------------------------------------------- requests come and go

  lemma GetKeepsInv(s: State, hashes: seq<Key>)
    requires Inv(s) && forall i, j :: 0 <= i < j < |hashes| ==> hashes[i] != hashes[j]
    ensures Inv(OnGet(s, hashes))
  {
    if s.request.None? {
      forall i | 0 <= i < |s.slots|
        ensures s.slots[i].Free?
      {
        assert SlotOk(s.slots[i], [], s.connections);
      }
    }
  }

  /** A request is freed exactly when it is finished, and a finished one has no slot working for it. */
  lemma ReleaseKeepsInv(s: State)
    requires Inv(s)
    ensures Inv(Release(s)) && Release(s) == s.(request := Release(s).request)
    ensures Release(s).request ==
            if forall k :: 0 <= k < |Chunks(s)| ==> Chunks(s)[k].state == Owned then None else s.request
    ensures s.request.Some? && Release(s).request.None? ==> forall i :: 0 <= i < |s.slots| ==> s.slots[i].Free?
  {
    if s.request.Some? {
      var k := Find(s.request.value, Unfinished());
      assert IsFirst(s.request.value, Unfinished(), k);
      if k < |s.request.value| {
        assert Unfinished()(s.request.value[k]);
      }
    }
    if s.request.Some? && Find(s.request.value, Unfinished()) == |s.request.value| {
      assert IsFirst(s.request.value, Unfinished(), |s.request.value|);
      forall k | 0 <= k < |Chunks(s)|
        ensures Chunks(s)[k].state == Owned
      {
        assert !Unfinished()(Chunks(s)[k]);
      }
      forall i | 0 <= i < |s.slots|
        ensures s.slots[i].Free?
      {
        assert SlotOk(s.slots[i], Chunks(s), s.connections);
      }
    }
  }

  // ------------------------------------------------------------------- whole runs

  lemma StepKeepsInv(s: State, e: Event)
    requires Inv(s) && Expected(s, e)
    ensures Step(s, e).Ok? ==> Inv(Step(s, e).s)
    ensures Step(s, e) == Fault <==> e.Data? && Overruns(s, e.peer, e.num, e.payload)
  {
    hide Inv, Overruns, OnData, Pick, AbortDownload, UpdateConnections, OnTick, OnGet, Release;
    match e
    case UserGet(hashes) => GetKeepsInv(s, hashes);
    case IHave(peer, hashes, now) => IHaveKeepsInv(s, peer, hashes, now);
    case Data(peer, num, payload, now) => DataKeepsInv(s, peer, num, payload, now);
    case Denied(peer) => AbortKeepsInv(s, peer);
    case Tick(now, rto) => TickKeepsInv(s, now, rto);
    case EndOfPass => ReleaseKeepsInv(s);
  }

  lemma IHaveKeepsInv(s: State, peer: int, hashes: seq<Key>, now: int)
    requires Inv(s) && Expected(s, IHave(peer, hashes, now))
    ensures Inv(OnIHave(s, peer, hashes, now))
  {
    hide Inv, Pick, UpdateConnections;
    UpdateKeepsInv(s, peer, hashes);
    NoSlotMeansUnused(s, peer);
    var s' := UpdateConnections(s, peer, hashes);
    if s'.request.Some? {
      PickKeepsInv(s', peer, hashes, now);
    }
  }

  lemma TickKeepsInv(s: State, now: int, rto: int)
    requires Inv(s)
    ensures Inv(OnTick(s, now, rto))
  {
    hide Inv, ForgetPeer, TakeOver;
    ForgetKeepsInv(s, now, rto);
    var (forgotten, found) := ForgetPeer(s, now, rto);
    if found {
      TakeOverKeepsInv(forgotten, now);
    }
  }

  /** A start: no request, every slot free, no peer known. */
  function Initial(slots: nat, has: seq<Key>): State
  {
    State(None, seq(slots, _ => Free), [], has, map[])
  }

  ghost predicate Possible(s: State, events: seq<Event>)
    decreases |events|
  {
    events == [] ||
    (Expected(s, events[0]) && Step(s, events[0]).Ok? && Possible(Step(s, events[0]).s, events[1..]))
  }

  function Run(s: State, events: seq<Event>): State
    decreases |events|
  {
    if events == [] then s
    else if Step(s, events[0]) == Fault then s
    else Run(Step(s, events[0]).s, events[1..])
  }

  lemma {:induction false} RunKeepsInv(s: State, events: seq<Event>)
    requires Inv(s) && Possible(s, events)
    ensures Inv(Run(s, events))
    decreases |events|
  {
    if events != [] {
      hide Inv, Step, Expected;
      StepKeepsInv(s, events[0]);
      RunKeepsInv(Step(s, events[0]).s, events[1..]);
    }
  }
}
