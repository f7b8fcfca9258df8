/**
  What the scheduler's invariant means for whole runs: no chunk is fetched twice at once, what is
  owned stays owned, and exactly which events leave a chunk stranded.
 */
module SchedulerRuns {
  import opened Wrappers
  import opened Common
  import opened Scheduler
  import opened SchedulerInvariant
  import Fips180
  import Receiver

  lemma InitialInv(slots: nat, has: seq<Key>)
    ensures Inv(Initial(slots, has))
  {
  }

  /** Active downloads have different peers and different chunks; each feeds a chunk of the request
      that is marked as received, with exactly the bytes taken since the slot was taken; each peer
      is known and marked as working. Nothing but such a chunk has a buffer. */
  lemma NoChunkFetchedTwice(slots: nat, has: seq<Key>, events: seq<Event>)
    requires Possible(Initial(slots, has), events)
    ensures var s := Run(Initial(slots, has), events);
            && (forall i, j :: 0 <= i < j < |s.slots| && s.slots[i].Busy? && s.slots[j].Busy? ==>
                  s.slots[i].peer != s.slots[j].peer && s.slots[i].hash != s.slots[j].hash)
            && (forall i :: 0 <= i < |s.slots| && s.slots[i].Busy? ==>
                  && Feeding(s, s.slots[i])
                  && Working(s, s.slots[i].peer))
            && (forall k :: 0 <= k < |Chunks(s)| && Chunks(s)[k].state != Receiving ==>
                  !Chunks(s)[k].hasBuffer && Chunks(s)[k].bytes == [])
  {
    InitialInv(slots, has);
    RunKeepsInv(Initial(slots, has), events);
    var s := Run(Initial(slots, has), events);
    forall i | 0 <= i < |s.slots| && s.slots[i].Busy?
      ensures Feeding(s, s.slots[i]) && Working(s, s.slots[i].peer)
    {
      assert SlotOk(s.slots[i], Chunks(s), s.connections);
      var k := SlotAndChunk(s, i);
    }
    forall k | 0 <= k < |Chunks(s)| && Chunks(s)[k].state != Receiving
      ensures !Chunks(s)[k].hasBuffer && Chunks(s)[k].bytes == []
    {
      assert ChunkOk(Chunks(s)[k], k, s.has, s.file);
    }
  }

  ghost predicate Feeding(s: State, slot: Slot)
    requires slot.Busy?
  {
    var k := Find(Chunks(s), Named(slot.hash));
    && k < |Chunks(s)| && Chunks(s)[k].hash == slot.hash && Chunks(s)[k].state == Receiving
    && Chunks(s)[k].bytes == slot.taken
    && (slot.last == Some(0) ==> Chunks(s)[k].bytes == [])
  }

  // ------------------------------------------------------- what no event touches

  /** Chunk `k` is neither waiting to be picked nor fed by a slot. */
  ghost predicate Alone(s: State, k: nat)
  {
    k < |Chunks(s)| && Chunks(s)[k].state != NotStarted && Unfed(s, Chunks(s)[k].hash)
  }

  ghost predicate LeftAlone(s: State, s': State, k: nat)
    requires k < |Chunks(s)|
  {
    Alone(s', k) && Chunks(s')[k] == Chunks(s)[k]
  }

  lemma StartLeavesAlone(s: State, peer: int, hash: Key, now: int, k: nat)
    requires Alone(s, k) && hash != Chunks(s)[k].hash
    ensures LeftAlone(s, StartDownload(s, peer, hash, now), k)
  {
  }

  lemma PickLeavesAlone(s: State, peer: int, offer: seq<Key>, now: int, k: nat)
    requires Inv(s) && s.request.Some? && Alone(s, k)
    ensures LeftAlone(s, Pick(s, peer, offer, now), k)
  {
    hide StartDownload, ConnectionsOk, SlotsOk, ChunkOk;
    var chunks := s.request.value;
    var m := Find(chunks, Wanted(offer));
    assert IsFirst(chunks, Wanted(offer), m);
    if m < |chunks| {
      assert Wanted(offer)(chunks[m]);
      var picked := MarkPeer(WithChunk(s, m, chunks[m].(state := Receiving)), peer, true);
      assert LeftAlone(s, picked, k);
      StartLeavesAlone(picked, peer, chunks[m].hash, now, k);
    }
  }

  lemma AbortLeavesAlone(s: State, peer: int, k: nat)
    requires Alone(s, k)
    ensures LeftAlone(s, AbortDownload(s, peer), k)
  {
  }

  lemma DataLeavesAlone(s: State, peer: int, num: nat, payload: seq<byte>, now: int, k: nat)
    requires Inv(s) && Alone(s, k) && num >= 1 && OnData(s, peer, num, payload, now).outcome.Ok?
    ensures LeftAlone(s, OnData(s, peer, num, payload, now).outcome.s, k)
  {
    hide Inv, Save, Receiver.Track;
    var i := Find(s.slots, HeldBy(peer));
    assert IsFirst(s.slots, HeldBy(peer), i);
    if i < |s.slots| {
      assert HeldBy(peer)(s.slots[i]);
      var m := SlotAndChunk(s, i);
      var last := Receiver.TrackFrom(s.slots[i].last, num);
      var tracked := s.(slots := s.slots[i := s.slots[i].(last := Some(last), lastTime := now)]);
      assert LeftAlone(s, tracked, k);
      if num == last {
        TrackedKeepsInv(s, i, m, num, now);
        SaveLeavesAlone(tracked, i, m, payload, now, k);
      }
    }
  }

  lemma TrackedKeepsInv(s: State, i: nat, k: nat, num: nat, now: int)
    requires Inv(s) && i < |s.slots| && s.slots[i].Busy? && num >= 1
    requires k < |Chunks(s)| && Feeds(s.slots[i], Chunks(s)[k])
    ensures var last := Receiver.TrackFrom(s.slots[i].last, num);
            Inv(s.(slots := s.slots[i := s.slots[i].(last := Some(last), lastTime := now)]))
  {
    hide RequestOk, SlotsOk, ConnectionsOk, ChunkOk;
    var slot := s.slots[i].(last := Some(Receiver.TrackFrom(s.slots[i].last, num)), lastTime := now);
    ChunkIsOk(s, k);
    FeedingKeepsInv(s, i, k, slot, Chunks(s)[k]);
    assert Chunks(s)[k := Chunks(s)[k]] == Chunks(s);
  }

  lemma SaveLeavesAlone(s: State, i: nat, m: nat, payload: seq<byte>, now: int, k: nat)
    requires Inv(s) && Alone(s, k) && i < |s.slots| && s.slots[i].Busy? && m < |Chunks(s)|
    requires s.request.Some? && Feeds(s.slots[i], Chunks(s)[m]) && s.slots[i].last != Some(0)
    requires Save(s, i, m, payload, now).Ok?
    ensures LeftAlone(s, Save(s, i, m, payload, now).s, k)
  {
    hide Inv, Pick, AbortDownload, SaveChunk, OfferedBy, Receiver.Clamp;
    var c, slot := s.request.value[m], s.slots[i];
    var more := Receiver.Clamp(payload);
    var full := WithChunk(s, m, c.(hasBuffer := true, bytes := c.bytes + more));
    assert LeftAlone(s, full, k);
    if |c.bytes + more| == BT_CHUNK_SIZE {
      var saved := SaveChunk(full, m);
      SavedLeavesAlone(full, m, k);
      AbortLeavesAlone(saved, slot.peer, k);
      FullKeepsInv(s, i, m, more);
      AbortTouchesSlotsOnly(saved, slot.peer);
      PickLeavesAlone(AbortDownload(saved, slot.peer), slot.peer, OfferedBy(saved.connections, slot.peer), now, k);
    }
  }

  lemma SavedLeavesAlone(s: State, m: nat, k: nat)
    requires Alone(s, k) && m != k && s.request.Some? && m < |s.request.value|
    requires |s.request.value[m].bytes| == BT_CHUNK_SIZE
    ensures LeftAlone(s, SaveChunk(s, m), k)
    ensures SaveChunk(s, m).request.Some? && SaveChunk(s, m).connections == s.connections
  {
  }

  /** A full chunk, verified, with its slot freed. */
  lemma FullKeepsInv(s: State, i: nat, m: nat, more: seq<byte>)
    requires Inv(s) && i < |s.slots| && s.slots[i].Busy? && s.request.Some? && m < |s.request.value|
    requires Feeds(s.slots[i], s.request.value[m]) && |s.request.value[m].bytes + more| == BT_CHUNK_SIZE
    ensures var c := s.request.value[m];
            var full := WithChunk(s, m, c.(hasBuffer := true, bytes := c.bytes + more));
            var freed := AbortDownload(SaveChunk(full, m), s.slots[i].peer);
            && Inv(freed) && freed.request.Some?
            && freed.slots == s.slots[i := Free]
            && |freed.request.value| == |s.request.value| && freed.request.value[m].state != Receiving
            && forall k :: 0 <= k < |s.request.value| && k != m ==> freed.request.value[k] == s.request.value[k]
  {
    hide RequestOk, SlotsOk, ConnectionsOk, SaveChunk;
    var c, peer := s.request.value[m], s.slots[i].peer;
    var full := WithChunk(s, m, c.(hasBuffer := true, bytes := c.bytes + more));
    SaveChunkFreed(full, m, peer);
    HeldSlot(s, i);
    AbortKeepsInv(s, peer);
    var freed := AbortDownload(s, peer);
    SavedKeepsInv(freed, m, c.bytes + more);
    assert AbortDownload(full, peer) == WithChunk(freed, m, c.(hasBuffer := true, bytes := c.bytes + more));
    SavedChunks(AbortDownload(full, peer), m);
  }

  lemma SavedChunks(s: State, m: nat)
    requires s.request.Some? && m < |s.request.value| && |s.request.value[m].bytes| == BT_CHUNK_SIZE
    ensures var s' := SaveChunk(s, m);
            && s'.slots == s.slots && s'.request.Some? && |s'.request.value| == |s.request.value|
            && s'.request.value[m].state != Receiving
            && forall k :: 0 <= k < |s.request.value| && k != m ==> s'.request.value[k] == s.request.value[k]
  {
  }

  lemma ForgetLeavesAlone(s: State, now: int, rto: int, k: nat)
    requires Inv(s) && Alone(s, k)
    ensures LeftAlone(s, ForgetPeer(s, now, rto).0, k)
  {
    hide Inv, AbortDownload;
    var i := Find(s.slots, Expired(now, rto));
    assert IsFirst(s.slots, Expired(now, rto), i);
    if i < |s.slots| {
      assert Expired(now, rto)(s.slots[i]);
      AbortLeavesAlone(s, s.slots[i].peer, k);
      var freed := AbortDownload(s, s.slots[i].peer);
      var m := SlotAndChunk(s, i);
      AbortTouchesSlotsOnly(s, s.slots[i].peer);
      assert LeftAlone(freed, WithChunk(freed, m, Chunk(s.slots[i].hash, NotStarted, false, [])), k);
    }
  }

  lemma AbortTouchesSlotsOnly(s: State, peer: int)
    ensures AbortDownload(s, peer) == s.(slots := AbortDownload(s, peer).slots)
  {
  }

  lemma TickLeavesAlone(s: State, now: int, rto: int, k: nat)
    requires Inv(s) && Alone(s, k)
    ensures LeftAlone(s, OnTick(s, now, rto), k)
  {
    hide Inv, ForgetPeer, Pick, OfferedBy, Useful;
    ForgetKeepsInv(s, now, rto);
    ForgetLeavesAlone(s, now, rto, k);
    var (forgotten, found) := ForgetPeer(s, now, rto);
    if found {
      var j := Find(forgotten.connections, Useful(forgotten.connections, forgotten.request.value));
      if j < |forgotten.connections| {
        var peer := forgotten.connections[j].peer;
        PickLeavesAlone(forgotten, peer, OfferedBy(forgotten.connections, peer), now, k);
      }
    }
  }

  lemma StepLeavesAlone(s: State, e: Event, k: nat)
    requires Inv(s) && Expected(s, e) && Alone(s, k) && Step(s, e).Ok?
    ensures LeftAlone(s, Step(s, e).s, k) ||
            (e.EndOfPass? && Step(s, e).s.request.None? && Chunks(s)[k].state == Owned)
  {
    hide Inv, OnData, Pick, AbortDownload, OnTick, UpdateConnections;
    match e
    case UserGet(hashes) =>
    case IHave(peer, hashes, now) =>
      UpdateKeepsInv(s, peer, hashes);
      PickLeavesAlone(UpdateConnections(s, peer, hashes), peer, hashes, now, k);
    case Data(peer, num, payload, now) => DataLeavesAlone(s, peer, num, payload, now, k);
    case Denied(peer) => AbortLeavesAlone(s, peer, k);
    case Tick(now, rto) => TickLeavesAlone(s, now, rto, k);
    case EndOfPass => ReleaseKeepsInv(s);
  }

  /** What is owned stays owned until the request is freed. */
  lemma OwnedStays(s: State, e: Event, k: nat)
    requires Inv(s) && Expected(s, e) && Step(s, e).Ok? && k < |Chunks(s)| && Chunks(s)[k].state == Owned
    ensures var s' := Step(s, e).s;
            s'.request.None? || (k < |Chunks(s')| && Chunks(s')[k] == Chunks(s)[k])
  {
    hide Inv, Step;
    NotReceivingIsUnfed(s, k);
    StepLeavesAlone(s, e, k);
  }

  // ------------------------------------------------------------- stranded chunks

  /** Chunk `k` is marked as received, and nobody sends it. */
  ghost predicate Stranded(s: State, k: nat)
  {
    k < |Chunks(s)| && Chunks(s)[k].state == Receiving && Unfed(s, Chunks(s)[k].hash)
  }

  ghost predicate NoneStranded(s: State)
  {
    forall k :: 0 <= k < |Chunks(s)| ==> !Stranded(s, k)
  }

  /** A stranded chunk stays stranded whatever happens, and its request is never freed. */
  lemma {:induction false} StrandedForever(s: State, events: seq<Event>, k: nat)
    requires Inv(s) && Possible(s, events) && Stranded(s, k)
    ensures Stranded(Run(s, events), k) && Run(s, events).request.Some?
    decreases |events|
  {
    if events != [] {
      hide Inv, Step, Expected;
      StepLeavesAlone(s, events[0], k);
      StepKeepsInv(s, events[0]);
      StrandedForever(Step(s, events[0]).s, events[1..], k);
    }
  }

  lemma StartFeeds(s: State, peer: int, m: nat, now: int)
    requires Inv(s) && m < |Chunks(s)| && Chunks(s)[m].state == Receiving && Unfed(s, Chunks(s)[m].hash)
    requires forall k :: 0 <= k < |Chunks(s)| && k != m ==> !Stranded(s, k)
    ensures NoneStranded(StartDownload(s, peer, Chunks(s)[m].hash, now)) <==> Find(s.slots, Vacant()) < |s.slots|
  {
    hide Inv;
    var i := Find(s.slots, Vacant());
    assert IsFirst(s.slots, Vacant(), i);
    var s' := StartDownload(s, peer, Chunks(s)[m].hash, now);
    if i < |s.slots| {
      assert Vacant()(s.slots[i]);
      forall k | 0 <= k < |Chunks(s)|
        ensures !Stranded(s', k)
      {
        if k == m {
          assert s'.slots[i].Busy?;
        } else if Chunks(s)[k].state == Receiving {
          assert !Stranded(s, k);
          var j :| 0 <= j < |s.slots| && s.slots[j].Busy? && s.slots[j].hash == Chunks(s)[k].hash;
          assert s'.slots[j].Busy? && s'.slots[j].hash == s.slots[j].hash;
        }
      }
    } else {
      assert Stranded(s', m);
    }
  }

  lemma PickStrandsIff(s: State, peer: int, offer: seq<Key>, now: int)
    requires Inv(s) && s.request.Some? && NoneStranded(s)
    ensures NoneStranded(Pick(s, peer, offer, now)) <==>
              Find(s.request.value, Wanted(offer)) == |s.request.value| || Find(s.slots, Vacant()) < |s.slots|
  {
    hide StartDownload, ConnectionsOk, SlotsOk, ChunkOk;
    var chunks := s.request.value;
    var m := Find(chunks, Wanted(offer));
    assert IsFirst(chunks, Wanted(offer), m);
    if m == |chunks| {
      MarkStrands(s, MarkPeer(s, peer, false));
    } else {
      assert Wanted(offer)(chunks[m]);
      NotReceivingIsUnfed(s, m);
      PickedKeepsInv(s, m);
      var picked := WithChunk(s, m, chunks[m].(state := Receiving));
      MarkKeepsInv(picked, peer, true);
      var marked := MarkPeer(picked, peer, true);
      forall k | 0 <= k < |chunks| && k != m
        ensures !Stranded(marked, k)
      {
        assert !Stranded(s, k);
      }
      StartFeeds(marked, peer, m, now);
    }
  }

  lemma PickedKeepsInv(s: State, m: nat)
    requires Inv(s) && s.request.Some? && m < |s.request.value| && s.request.value[m].state == NotStarted
    ensures Inv(WithChunk(s, m, s.request.value[m].(state := Receiving)))
  {
    hide ConnectionsOk, SlotsOk;
    assert ChunkOk(s.request.value[m], m, s.has, s.file);
    NotReceivingIsUnfed(s, m);
    ChunkKeepsInv(s, m, s.request.value[m].(state := Receiving), s.has, s.file);
    var picked := WithChunk(s, m, s.request.value[m].(state := Receiving));
    assert picked == picked.(has := s.has, file := s.file);
  }

  /** Being stranded is a matter of chunks and slots only. */
  lemma MarkStrands(s: State, s': State)
    requires s'.request == s.request && s'.slots == s.slots
    ensures NoneStranded(s') <==> NoneStranded(s)
  {
    assert forall k: nat :: Stranded(s', k) <==> Stranded(s, k);
  }

  /** Freeing a slot strands nothing when its chunk is no longer marked. */
  lemma FreeingStrandsNothing(s: State, s': State, i: nat, m: nat)
    requires Inv(s) && NoneStranded(s) && i < |s.slots| && s.slots[i].Busy?
    requires s.request.Some? && s'.request.Some? && m < |s.request.value| == |s'.request.value|
    requires Feeds(s.slots[i], s.request.value[m]) && s'.slots == s.slots[i := Free]
    requires s'.request.value[m].state != Receiving
    requires forall k :: 0 <= k < |s.request.value| && k != m ==> s'.request.value[k] == s.request.value[k]
    ensures NoneStranded(s') && Find(s'.slots, Vacant()) < |s'.slots|
  {
    hide ChunkOk, ConnectionsOk, SlotsOk;
    FirstExists(s'.slots, Vacant(), i);
    forall k | 0 <= k < |s'.request.value|
      ensures !Stranded(s', k)
    {
      if k != m && s.request.value[k].state == Receiving {
        assert !Stranded(s, k);
        var j :| 0 <= j < |s.slots| && s.slots[j].Busy? && s.slots[j].hash == s.request.value[k].hash;
        assert s.request.value[k].hash != s.request.value[m].hash;
        assert s'.slots[j] == s.slots[j];
      }
    }
  }

  lemma DeniedStrandsIff(s: State, peer: int)
    requires Inv(s) && NoneStranded(s)
    ensures NoneStranded(AbortDownload(s, peer)) <==> Find(s.slots, HeldBy(peer)) == |s.slots|
  {
    hide Inv;
    var i := Find(s.slots, HeldBy(peer));
    assert IsFirst(s.slots, HeldBy(peer), i);
    if i < |s.slots| {
      assert HeldBy(peer)(s.slots[i]);
      var m := SlotAndChunk(s, i);
      AbortKeepsInv(s, peer);
      assert Stranded(AbortDownload(s, peer), m);
    }
  }

  lemma DataStrandsNothing(s: State, peer: int, num: nat, payload: seq<byte>, now: int)
    requires Inv(s) && NoneStranded(s) && num >= 1 && OnData(s, peer, num, payload, now).outcome.Ok?
    ensures NoneStranded(OnData(s, peer, num, payload, now).outcome.s)
  {
    hide Inv, Save, Receiver.Track;
    var i := Find(s.slots, HeldBy(peer));
    assert IsFirst(s.slots, HeldBy(peer), i);
    if i < |s.slots| {
      assert HeldBy(peer)(s.slots[i]);
      var m := SlotAndChunk(s, i);
      var last := Receiver.TrackFrom(s.slots[i].last, num);
      var tracked := s.(slots := s.slots[i := s.slots[i].(last := Some(last), lastTime := now)]);
      RenumberStrands(s, tracked, i);
      if num == last {
        TrackedKeepsInv(s, i, m, num, now);
        SaveStrandsNothing(tracked, i, m, payload, now);
      }
    }
  }

  /** Nothing is stranded by a slot that keeps its chunk, or by a chunk that keeps its mark. */
  lemma RenumberStrands(s: State, s': State, i: nat)
    requires NoneStranded(s) && i < |s.slots| && s.slots[i].Busy? && |s'.slots| == |s.slots|
    requires forall j :: 0 <= j < |s.slots| && s.slots[j].Busy? ==>
                           s'.slots[j].Busy? && s'.slots[j].hash == s.slots[j].hash
    requires |Chunks(s')| == |Chunks(s)|
    requires forall k :: 0 <= k < |Chunks(s)| ==>
                           Chunks(s')[k].hash == Chunks(s)[k].hash && Chunks(s')[k].state == Chunks(s)[k].state
    ensures NoneStranded(s')
  {
    forall k | 0 <= k < |Chunks(s')|
      ensures !Stranded(s', k)
    {
      assert !Stranded(s, k);
    }
  }

  lemma SaveStrandsNothing(s: State, i: nat, m: nat, payload: seq<byte>, now: int)
    requires Inv(s) && NoneStranded(s) && i < |s.slots| && s.slots[i].Busy? && s.request.Some? && m < |s.request.value|
    requires Feeds(s.slots[i], s.request.value[m]) && Save(s, i, m, payload, now).Ok?
    ensures NoneStranded(Save(s, i, m, payload, now).s)
  {
    hide Inv, Pick, AbortDownload, SaveChunk, OfferedBy, Receiver.Clamp, NoneStranded;
    var c, slot := s.request.value[m], s.slots[i];
    var more := Receiver.Clamp(payload);
    if |c.bytes + more| == BT_CHUNK_SIZE {
      var saved := SaveChunk(WithChunk(s, m, c.(hasBuffer := true, bytes := c.bytes + more)), m);
      FullKeepsInv(s, i, m, more);
      var freed := AbortDownload(saved, slot.peer);
      FreeingStrandsNothing(s, freed, i, m);
      PickStrandsIff(freed, slot.peer, OfferedBy(saved.connections, slot.peer), now);
      AbortTouchesSlotsOnly(saved, slot.peer);
    } else {
      RenumberStrands(s, Save(s, i, m, payload, now).s, i);
    }
  }

  lemma TickStrandsNothing(s: State, now: int, rto: int)
    requires Inv(s) && NoneStranded(s)
    ensures NoneStranded(OnTick(s, now, rto))
  {
    hide Inv, Pick, OfferedBy, NoneStranded;
    ForgetKeepsInv(s, now, rto);
    var i := Find(s.slots, Expired(now, rto));
    assert IsFirst(s.slots, Expired(now, rto), i);
    if i < |s.slots| {
      assert Expired(now, rto)(s.slots[i]);
      var m := SlotAndChunk(s, i);
      HeldSlot(s, i);
      SlotHasConnection(s, i);
      var forgotten := ForgetPeer(s, now, rto).0;
      FreeingStrandsNothing(s, forgotten, i, m);
      TakeOverStrandsNothing(forgotten, now);
    }
  }

  lemma TakeOverStrandsNothing(s: State, now: int)
    requires Inv(s) && s.request.Some? && NoneStranded(s) && Find(s.slots, Vacant()) < |s.slots|
    ensures NoneStranded(TakeOver(s, now))
  {
    hide Inv, Pick, OfferedBy, NoneStranded, Useful;
    var j := Find(s.connections, Useful(s.connections, s.request.value));
    if j < |s.connections| {
      var peer := s.connections[j].peer;
      PickStrandsIff(s, peer, OfferedBy(s.connections, peer), now);
    }
  }

  /** The two events that strand a chunk: a peer that refuses while it holds a slot, and an offer
      of a wanted chunk when no slot is free. */
  ghost predicate Strands(s: State, e: Event)
  {
    match e
    case Denied(peer) => Find(s.slots, HeldBy(peer)) < |s.slots|
    case IHave(_, hashes, _) =>
      Find(Chunks(s), Wanted(hashes)) < |Chunks(s)| && Find(s.slots, Vacant()) == |s.slots|
    case _ => false
  }

  /** As long as every chunk marked as received is being sent, one more event leaves one behind
      exactly when it is one of those two; timeouts, failed hashes and completions never do. */
  lemma StepStrandsIff(s: State, e: Event)
    requires Inv(s) && NoneStranded(s) && Expected(s, e) && Step(s, e).Ok?
    ensures NoneStranded(Step(s, e).s) <==> !Strands(s, e)
  {
    hide Inv, OnData, Pick, AbortDownload, OnTick, UpdateConnections;
    match e
    case UserGet(hashes) =>
    case IHave(peer, hashes, now) =>
      UpdateKeepsInv(s, peer, hashes);
      var s' := UpdateConnections(s, peer, hashes);
      MarkStrands(s, s');
      if s'.request.Some? {
        PickStrandsIff(s', peer, hashes, now);
      }
    case Data(peer, num, payload, now) => DataStrandsNothing(s, peer, num, payload, now);
    case Denied(peer) => DeniedStrandsIff(s, peer);
    case Tick(now, rto) => TickStrandsNothing(s, now, rto);
    case EndOfPass =>
  }

  // ----------------------------------------------- a slot is the receiver of a transfer

  /** The download that a slot with a record stands for; `log` is not stored. */
  function AsDownload(slot: Slot, log: seq<nat>): Receiver.Downstream
    requires slot.Busy? && slot.last.Some?
  {
    Receiver.Downstream(Receiver.Running, slot.last.value, log, slot.taken)
  }

  /** DATA to an active slot does what `Receiver.OnData` does to a running download that is as far:
      same answer, same number, same bytes, and an overrun is a fault. A completed chunk becomes
      owned, and is written out, exactly when its contents have its hash; otherwise it starts over or
      is taken up again. */
  lemma SlotIsReceiver(s: State, i: nat, num: nat, payload: seq<byte>, now: int, log: seq<nat>)
    requires Inv(s) && i < |s.slots| && s.slots[i].Busy? && num >= 1
    ensures s.slots[i].last.Some?
    ensures var slot := s.slots[i];
            var r := Receiver.OnData(AsDownload(slot, log), num, payload);
            var reply := OnData(s, slot.peer, num, payload, now);
            && reply.ack == r.ack
            && (reply.outcome == Fault <==> r.d.status == Receiver.Overrun)
            && (r.d.status == Receiver.Running ==>
                  && i < |reply.outcome.s.slots|
                  && reply.outcome.s.slots[i] ==
                     slot.(last := Some(r.d.last), lastTime := now, taken := r.d.bytes))
            && (r.d.status == Receiver.Complete ==>
                  var k := Find(Chunks(s), Named(slot.hash));
                  k < |Chunks(reply.outcome.s)| && Settles(reply.outcome.s, k, slot.hash, r.d.bytes))
  {
    hide Inv, Save, Receiver.Clamp, Settles, SlotsOk, RequestOk;
    var k := SlotAndChunk(s, i);
    HeldSlot(s, i);
    ChunkIsOk(s, k);
    var last := Receiver.TrackFrom(s.slots[i].last, num);
    var tracked := s.(slots := s.slots[i := s.slots[i].(last := Some(last), lastTime := now)]);
    if num == last {
      SaveIsReceiver(tracked, i, k, payload, now);
    }
  }

  /** Chunk `k` has been verified: owned and written out, or not. */
  ghost predicate Settles(s: State, k: nat, hash: Key, bytes: seq<byte>)
    requires k < |Chunks(s)| && |bytes| == BT_CHUNK_SIZE
  {
    && Chunks(s)[k].hash == hash
    && (Chunks(s)[k].state == Owned <==> Fips180.Digest(bytes) == hash)
    && (Chunks(s)[k].state == Owned ==> k in s.file && s.file[k] == bytes)
  }

  lemma SaveIsReceiver(s: State, i: nat, k: nat, payload: seq<byte>, now: int)
    requires s.request.Some? && k < |s.request.value| && i < |s.slots| && s.slots[i].Busy?
    requires Feeds(s.slots[i], s.request.value[k]) && |s.request.value[k].bytes| < BT_CHUNK_SIZE
    ensures var slot := s.slots[i];
            var bytes := slot.taken + Receiver.Clamp(payload);
            var r := Save(s, i, k, payload, now);
            && (r == Fault <==> |bytes| > BT_CHUNK_SIZE)
            && (|bytes| < BT_CHUNK_SIZE ==> r.s.slots == s.slots[i := slot.(taken := bytes)])
            && (|bytes| == BT_CHUNK_SIZE ==> k < |Chunks(r.s)| && Settles(r.s, k, slot.hash, bytes))
  {
    hide Receiver.Clamp, Fips180.Digest, OfferedBy, Pick, AbortDownload, SaveChunk;
    var c, slot := s.request.value[k], s.slots[i];
    var bytes := c.bytes + Receiver.Clamp(payload);
    if |bytes| == BT_CHUNK_SIZE {
      var full := WithChunk(s, k, c.(hasBuffer := true, bytes := bytes));
      SavedSettles(full, k);
      AbortTouchesSlotsOnly(SaveChunk(full, k), slot.peer);
      var freed := AbortDownload(SaveChunk(full, k), slot.peer);
      PickKeepsOwned(freed, slot.peer, OfferedBy(freed.connections, slot.peer), now, k);
    }
  }

  lemma SavedSettles(s: State, k: nat)
    requires s.request.Some? && k < |s.request.value| && |s.request.value[k].bytes| == BT_CHUNK_SIZE
    ensures var s' := SaveChunk(s, k);
            && s'.request.Some? && |s'.request.value| == |s.request.value|
            && Settles(s', k, s.request.value[k].hash, s.request.value[k].bytes)
  {
    hide Fips180.Digest;
  }

  lemma PickKeepsOwned(s: State, peer: int, offer: seq<Key>, now: int, k: nat)
    requires s.request.Some? && k < |s.request.value|
    ensures var s' := Pick(s, peer, offer, now);
            && k < |Chunks(s')| && s'.file == s.file && Chunks(s')[k].hash == s.request.value[k].hash
            && (Chunks(s')[k].state == Owned <==> s.request.value[k].state == Owned)
  {
    hide TrackPacket;
    var m := Find(s.request.value, Wanted(offer));
    assert IsFirst(s.request.value, Wanted(offer), m);
    if m < |s.request.value| {
      assert Wanted(offer)(s.request.value[m]);
    }
  }

  // ---------------------------------------------------------------- who is asked

  /** A GET for `h` goes to a peer without a slot exactly when a download of `h` from it starts. */
  lemma PickGetIff(s: State, peer: int, offer: seq<Key>, now: int, h: Key)
    requires s.request.Some? && Unused(s, peer)
    ensures PickGet(s, offer) == Some(h) <==> Busy(peer, h, Some(0), now, []) in Pick(s, peer, offer, now).slots
  {
    hide TrackPacket, StartDownload;
    var chunks := s.request.value;
    var k := Find(chunks, Wanted(offer));
    MarkTouchesNoSlot(s, peer, false);
    if k < |chunks| {
      var marked := MarkPeer(WithChunk(s, k, chunks[k].(state := Receiving)), peer, true);
      MarkTouchesNoSlot(WithChunk(s, k, chunks[k].(state := Receiving)), peer, true);
      StartsFresh(marked, peer, chunks[k].hash, now);
      var i := Find(s.slots, Vacant());
      if i < |s.slots| {
        var started := Pick(s, peer, offer, now).slots;
        assert started[i] == Busy(peer, chunks[k].hash, Some(0), now, []);
        assert forall j :: 0 <= j < |started| && j != i ==> started[j] == s.slots[j];
      }
    }
  }

  lemma MarkTouchesNoSlot(s: State, peer: int, working: bool)
    ensures MarkPeer(s, peer, working).slots == s.slots && MarkPeer(s, peer, working).request == s.request
  {
  }

  // --------------------------------------------------------- what others leave alone

  /** An event that is not about slot `i` or its peer. */
  ghost predicate Elsewhere(s: State, e: Event, i: nat)
    requires i < |s.slots| && s.slots[i].Busy?
  {
    match e
    case UserGet(_) => true
    case IHave(peer, _, _) => peer != s.slots[i].peer
    case Data(peer, _, _, _) => peer != s.slots[i].peer
    case Denied(peer) => peer != s.slots[i].peer
    case Tick(now, rto) => Find(s.slots, Expired(now, rto)) != i
    case EndOfPass => true
  }

  ghost predicate SameSlot(s: State, s': State, i: nat)
    requires i < |s.slots|
  {
    |s'.slots| == |s.slots| && s'.slots[i] == s.slots[i]
  }

  lemma PickKeepsSlot(s: State, peer: int, offer: seq<Key>, now: int, i: nat)
    requires s.request.Some? && Unused(s, peer) && i < |s.slots| && s.slots[i].Busy?
    ensures SameSlot(s, Pick(s, peer, offer, now), i)
  {
    hide TrackPacket, StartDownload;
    var chunks := s.request.value;
    var k := Find(chunks, Wanted(offer));
    MarkTouchesNoSlot(s, peer, false);
    if k < |chunks| {
      var picked := WithChunk(s, k, chunks[k].(state := Receiving));
      MarkTouchesNoSlot(picked, peer, true);
      StartsFresh(MarkPeer(picked, peer, true), peer, chunks[k].hash, now);
      var v := Find(s.slots, Vacant());
      assert IsFirst(s.slots, Vacant(), v);
      if v < |s.slots| {
        assert Vacant()(s.slots[v]);
      }
    }
  }

  lemma AbortKeepsSlot(s: State, peer: int, i: nat)
    requires i < |s.slots| && s.slots[i].Busy? && s.slots[i].peer != peer
    ensures SameSlot(s, AbortDownload(s, peer), i)
  {
    var j := Find(s.slots, HeldBy(peer));
    assert IsFirst(s.slots, HeldBy(peer), j);
    if j < |s.slots| {
      assert HeldBy(peer)(s.slots[j]);
    }
  }

  lemma FreedIsUnused(s: State, j: nat, s': State)
    requires Inv(s) && j < |s.slots| && s.slots[j].Busy? && s'.slots == s.slots[j := Free]
    ensures Unused(s', s.slots[j].peer)
  {
    hide RequestOk, ConnectionsOk, SlotOk;
  }

  lemma SaveKeepsSlot(s: State, j: nat, m: nat, payload: seq<byte>, now: int, i: nat)
    requires Inv(s) && j < |s.slots| && s.slots[j].Busy? && s.request.Some? && m < |s.request.value|
    requires Feeds(s.slots[j], s.request.value[m]) && Save(s, j, m, payload, now).Ok?
    requires i < |s.slots| && s.slots[i].Busy? && i != j
    ensures SameSlot(s, Save(s, j, m, payload, now).s, i)
  {
    hide Inv, Pick, AbortDownload, SaveChunk, OfferedBy, Receiver.Clamp;
    var c, slot := s.request.value[m], s.slots[j];
    var more := Receiver.Clamp(payload);
    if |c.bytes + more| == BT_CHUNK_SIZE {
      var saved := SaveChunk(WithChunk(s, m, c.(hasBuffer := true, bytes := c.bytes + more)), m);
      FullKeepsInv(s, j, m, more);
      var freed := AbortDownload(saved, slot.peer);
      FreedIsUnused(s, j, freed);
      AbortTouchesSlotsOnly(saved, slot.peer);
      PickKeepsSlot(freed, slot.peer, OfferedBy(saved.connections, slot.peer), now, i);
    }
  }

  lemma DataKeepsSlot(s: State, peer: int, num: nat, payload: seq<byte>, now: int, i: nat)
    requires Inv(s) && num >= 1 && OnData(s, peer, num, payload, now).outcome.Ok?
    requires i < |s.slots| && s.slots[i].Busy? && s.slots[i].peer != peer
    ensures SameSlot(s, OnData(s, peer, num, payload, now).outcome.s, i)
  {
    hide Inv, Save, Receiver.Track;
    var j := Find(s.slots, HeldBy(peer));
    assert IsFirst(s.slots, HeldBy(peer), j);
    if j < |s.slots| {
      assert HeldBy(peer)(s.slots[j]);
      var m := SlotAndChunk(s, j);
      var last := Receiver.TrackFrom(s.slots[j].last, num);
      var tracked := s.(slots := s.slots[j := s.slots[j].(last := Some(last), lastTime := now)]);
      if num == last {
        TrackedKeepsInv(s, j, m, num, now);
        SaveKeepsSlot(tracked, j, m, payload, now, i);
      }
    }
  }

  lemma ForgetKeepsSlot(s: State, now: int, rto: int, i: nat)
    requires Inv(s) && i < |s.slots| && s.slots[i].Busy? && Find(s.slots, Expired(now, rto)) != i
    ensures SameSlot(s, ForgetPeer(s, now, rto).0, i)
  {
    hide Inv, AbortDownload;
    var j := Find(s.slots, Expired(now, rto));
    assert IsFirst(s.slots, Expired(now, rto), j);
    if j < |s.slots| {
      assert Expired(now, rto)(s.slots[j]);
      var peer := s.slots[j].peer;
      PeersDiffer(s, i, j);
      AbortKeepsSlot(s, peer, i);
    }
  }

  lemma PeersDiffer(s: State, i: nat, j: nat)
    requires Inv(s) && i < |s.slots| && j < |s.slots| && i != j && s.slots[i].Busy? && s.slots[j].Busy?
    ensures s.slots[i].peer != s.slots[j].peer
  {
    hide RequestOk, ConnectionsOk, SlotOk;
  }

  lemma TickKeepsSlot(s: State, now: int, rto: int, i: nat)
    requires Inv(s) && i < |s.slots| && s.slots[i].Busy? && Find(s.slots, Expired(now, rto)) != i
    ensures SameSlot(s, OnTick(s, now, rto), i)
  {
    hide Inv, ForgetPeer, Pick, OfferedBy, Useful;
    ForgetKeepsInv(s, now, rto);
    ForgetKeepsSlot(s, now, rto, i);
    var (forgotten, found) := ForgetPeer(s, now, rto);
    if found {
      var useful := Useful(forgotten.connections, forgotten.request.value);
      var j := Find(forgotten.connections, useful);
      assert IsFirst(forgotten.connections, useful, j);
      if j < |forgotten.connections| {
        assert useful(forgotten.connections[j]);
        var peer := forgotten.connections[j].peer;
        UsefulIsIdle(forgotten, j);
        IdleIsUnused(forgotten, j);
        PickKeepsSlot(forgotten, peer, OfferedBy(forgotten.connections, peer), now, i);
      }
    }
  }

  lemma UsefulIsIdle(s: State, j: nat)
    requires s.request.Some? && j < |s.connections| && Useful(s.connections, s.request.value)(s.connections[j])
    ensures !s.connections[j].working
  {
  }

  /** A slot is touched by its own peer's packets and its own timeout only. */
  lemma OthersKeepSlot(s: State, e: Event, i: nat)
    requires Inv(s) && Expected(s, e) && Step(s, e).Ok?
    requires i < |s.slots| && s.slots[i].Busy? && Elsewhere(s, e, i)
    ensures SameSlot(s, Step(s, e).s, i)
  {
    hide Inv, OnData, Pick, AbortDownload, OnTick, UpdateConnections;
    match e
    case UserGet(hashes) =>
    case IHave(peer, hashes, now) =>
      UpdateTouchesNoSlot(s, peer, hashes);
      NoSlotMeansUnused(s, peer);
      var s' := UpdateConnections(s, peer, hashes);
      if s'.request.Some? {
        PickKeepsSlot(s', peer, hashes, now, i);
      }
    case Data(peer, num, payload, now) => DataKeepsSlot(s, peer, num, payload, now, i);
    case Denied(peer) => AbortKeepsSlot(s, peer, i);
    case Tick(now, rto) => TickKeepsSlot(s, now, rto, i);
    case EndOfPass =>
  }

  lemma UpdateTouchesNoSlot(s: State, peer: int, hashes: seq<Key>)
    ensures var s' := UpdateConnections(s, peer, hashes); s'.slots == s.slots && s'.request == s.request
  {
  }
}
