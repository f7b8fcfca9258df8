/**
  The scheduler without its hypothesis that a peer which is sending a chunk does not answer a second
  WHOHAS: what still holds in every run, what exactly a second answer breaks, and runs from the start
  into each failure. A request with more than 74 missing chunks is asked for in several WHOHAS
  packets, and each of them is answered.
 */
module SchedulerLimits {
  import opened Wrappers
  import opened Common
  import opened Scheduler
  import opened SchedulerInvariant
  import opened SchedulerRuns
  import Fips180
  import Receiver
  import Sender

  // --------------------------------------------------------- what holds regardless

  /** Requests name no hash twice; any other event is allowed at any time. */
  ghost predicate Plain(e: Event)
  {
    e.UserGet? ==> forall i, j :: 0 <= i < j < |e.hashes| ==> e.hashes[i] != e.hashes[j]
  }

  ghost predicate Survives(s: State, events: seq<Event>)
    decreases |events|
  {
    events == [] ||
    (Plain(events[0]) && Step(s, events[0]).Ok? && Survives(Step(s, events[0]).s, events[1..]))
  }

  ghost predicate ChunksOk(s: State)
  {
    RequestOk(Chunks(s), s.has, s.file)
  }

  lemma ReplacingKeepsChunks(s: State, k: nat, c: Chunk, has: seq<Key>, file: map<nat, seq<byte>>)
    requires ChunksOk(s) && s.request.Some? && k < |s.request.value|
    requires c.hash == s.request.value[k].hash && ChunkOk(c, k, has, file)
    requires forall h :: h in s.has ==> h in has
    requires forall m :: m in s.file && m != k ==> m in file && file[m] == s.file[m]
    ensures ChunksOk(WithChunk(s, k, c).(has := has, file := file))
  {
    var chunks := s.request.value[k := c];
    forall m | 0 <= m < |chunks|
      ensures ChunkOk(chunks[m], m, has, file)
    {
      assert ChunkOk(s.request.value[m], m, s.has, s.file);
    }
  }

  lemma PickKeepsChunks(s: State, peer: int, offer: seq<Key>, now: int)
    requires ChunksOk(s) && s.request.Some?
    ensures ChunksOk(Pick(s, peer, offer, now))
  {
    hide RequestOk, StartDownload, MarkPeer;
    var chunks := s.request.value;
    var k := Find(chunks, Wanted(offer));
    assert IsFirst(chunks, Wanted(offer), k);
    if k < |chunks| {
      assert Wanted(offer)(chunks[k]);
      ChunkOfRequest(s, k);
      var c := chunks[k].(state := Receiving);
      ReplacingKeepsChunks(s, k, c, s.has, s.file);
      assert WithChunk(s, k, c) == WithChunk(s, k, c).(has := s.has, file := s.file);
      StartTouchesSlotsOnly(MarkPeer(WithChunk(s, k, c), peer, true), peer, chunks[k].hash, now);
      MarkTouchesConnectionsOnly(WithChunk(s, k, c), peer, true);
    } else {
      MarkTouchesConnectionsOnly(s, peer, false);
    }
  }

  lemma ChunkOfRequest(s: State, k: nat)
    requires ChunksOk(s) && k < |Chunks(s)|
    ensures ChunkOk(Chunks(s)[k], k, s.has, s.file)
  {
  }

  lemma StartTouchesSlotsOnly(s: State, peer: int, hash: Key, now: int)
    ensures var s' := StartDownload(s, peer, hash, now); s' == s.(slots := s'.slots)
  {
  }

  lemma MarkTouchesConnectionsOnly(s: State, peer: int, working: bool)
    ensures var s' := MarkPeer(s, peer, working); s' == s.(connections := s'.connections)
  {
  }

  lemma SavingKeepsChunks(s: State, k: nat, bytes: seq<byte>)
    requires ChunksOk(s) && s.request.Some? && k < |s.request.value| && |bytes| == BT_CHUNK_SIZE
    ensures var c := s.request.value[k];
            ChunksOk(SaveChunk(WithChunk(s, k, c.(hasBuffer := true, bytes := bytes)), k))
  {
    hide RequestOk, Fips180.Digest;
    var c := s.request.value[k];
    var full := WithChunk(s, k, c.(hasBuffer := true, bytes := bytes));
    var blank := Chunk(c.hash, NotStarted, false, []);
    if Fips180.Digest(bytes) != c.hash {
      ReplacingKeepsChunks(s, k, blank, s.has, s.file);
      assert full.request.value[k := blank] == s.request.value[k := blank];
      assert SaveChunk(full, k) == WithChunk(s, k, blank).(has := s.has, file := s.file);
    } else {
      var owned := blank.(state := Owned);
      assert full.request.value[k := owned] == s.request.value[k := owned];
      ReplacingKeepsChunks(s, k, owned, if c.hash in s.has then s.has else s.has + [c.hash], s.file[k := bytes]);
    }
  }

  lemma SaveKeepsChunks(s: State, i: nat, k: nat, payload: seq<byte>, now: int)
    requires ChunksOk(s) && s.request.Some? && k < |s.request.value| && i < |s.slots| && s.slots[i].Busy?
    requires Save(s, i, k, payload, now).Ok?
    ensures ChunksOk(Save(s, i, k, payload, now).s)
  {
    hide RequestOk, SaveChunk, Pick, AbortDownload, OfferedBy, Receiver.Clamp;
    var c, slot := s.request.value[k], s.slots[i];
    ChunkOfRequest(s, k);
    if c.state != Owned {
      var bytes := c.bytes + Receiver.Clamp(payload);
      if |bytes| < BT_CHUNK_SIZE {
        var more := c.(hasBuffer := true, bytes := bytes);
        ReplacingKeepsChunks(s, k, more, s.has, s.file);
        assert WithChunk(s, k, more) == WithChunk(s, k, more).(has := s.has, file := s.file);
      } else {
        var full := WithChunk(s, k, c.(hasBuffer := true, bytes := bytes));
        SavingKeepsChunks(s, k, bytes);
        SavedChunks(full, k);
        AbortTouchesSlotsOnly(SaveChunk(full, k), slot.peer);
        var freed := AbortDownload(SaveChunk(full, k), slot.peer);
        PickKeepsChunks(freed, slot.peer, OfferedBy(freed.connections, slot.peer), now);
      }
    }
  }

  lemma DataKeepsChunks(s: State, peer: int, num: nat, payload: seq<byte>, now: int)
    requires ChunksOk(s) && OnData(s, peer, num, payload, now).outcome.Ok?
    ensures ChunksOk(OnData(s, peer, num, payload, now).outcome.s)
  {
    hide RequestOk, Save;
    var i := Find(s.slots, HeldBy(peer));
    assert IsFirst(s.slots, HeldBy(peer), i);
    if i < |s.slots| && s.request.Some? {
      assert HeldBy(peer)(s.slots[i]);
      var k := Find(s.request.value, Named(s.slots[i].hash));
      var last := Receiver.TrackFrom(s.slots[i].last, num);
      var tracked := s.(slots := s.slots[i := s.slots[i].(last := Some(last), lastTime := now)]);
      if k < |s.request.value| && num == last {
        SaveKeepsChunks(tracked, i, k, payload, now);
      }
    }
  }

  lemma TickKeepsChunks(s: State, now: int, rto: int)
    requires ChunksOk(s)
    ensures ChunksOk(OnTick(s, now, rto))
  {
    hide RequestOk, Pick, OfferedBy, Useful, AbortDownload;
    var i := Find(s.slots, Expired(now, rto));
    assert IsFirst(s.slots, Expired(now, rto), i);
    var (forgotten, found) := ForgetPeer(s, now, rto);
    if i < |s.slots| {
      assert Expired(now, rto)(s.slots[i]);
      AbortTouchesSlotsOnly(s, s.slots[i].peer);
      ForgetKeepsChunks(s, now, rto);
    }
    if found {
      var j := Find(forgotten.connections, Useful(forgotten.connections, forgotten.request.value));
      if j < |forgotten.connections| {
        var peer := forgotten.connections[j].peer;
        PickKeepsChunks(forgotten, peer, OfferedBy(forgotten.connections, peer), now);
      }
    }
  }

  lemma ForgetKeepsChunks(s: State, now: int, rto: int)
    requires ChunksOk(s)
    ensures ChunksOk(ForgetPeer(s, now, rto).0)
    ensures ForgetPeer(s, now, rto).1 ==> ForgetPeer(s, now, rto).0.request.Some?
  {
    hide RequestOk, AbortDownload;
    var i := Find(s.slots, Expired(now, rto));
    assert IsFirst(s.slots, Expired(now, rto), i);
    if i < |s.slots| {
      assert Expired(now, rto)(s.slots[i]);
      AbortTouchesSlotsOnly(s, s.slots[i].peer);
      var freed := AbortDownload(s, s.slots[i].peer);
      if s.request.Some? {
        var k := Find(s.request.value, Named(s.slots[i].hash));
        if k < |s.request.value| {
          var blank := Chunk(s.request.value[k].hash, NotStarted, false, []);
          ReplacingKeepsChunks(freed, k, blank, s.has, s.file);
          assert WithChunk(freed, k, blank) == WithChunk(freed, k, blank).(has := s.has, file := s.file);
        }
      }
    }
  }

  lemma StepKeepsChunks(s: State, e: Event)
    requires ChunksOk(s) && Plain(e) && Step(s, e).Ok?
    ensures ChunksOk(Step(s, e).s)
  {
    hide OnData, Pick, AbortDownload, OnTick, RequestOk;
    match e
    case UserGet(hashes) => GetKeepsChunks(s, hashes);
    case IHave(peer, hashes, now) =>
      var s' := UpdateConnections(s, peer, hashes);
      if s'.request.Some? {
        PickKeepsChunks(s', peer, hashes, now);
      }
    case Data(peer, num, payload, now) => DataKeepsChunks(s, peer, num, payload, now);
    case Denied(peer) => AbortTouchesSlotsOnly(s, peer);
    case Tick(now, rto) => TickKeepsChunks(s, now, rto);
    case EndOfPass => assert RequestOk([], s.has, s.file) by { NoChunksOk(s); }
  }

  lemma NoChunksOk(s: State)
    ensures RequestOk([], s.has, s.file)
  {
  }

  lemma GetKeepsChunks(s: State, hashes: seq<Key>)
    requires ChunksOk(s) && forall i, j :: 0 <= i < j < |hashes| ==> hashes[i] != hashes[j]
    ensures ChunksOk(OnGet(s, hashes))
  {
  }

  lemma {:induction false} RunKeepsChunks(s: State, events: seq<Event>)
    requires ChunksOk(s) && Survives(s, events)
    ensures ChunksOk(Run(s, events))
    decreases |events|
  {
    if events != [] {
      hide ChunksOk, Step, Plain;
      StepKeepsChunks(s, events[0]);
      RunKeepsChunks(Step(s, events[0]).s, events[1..]);
    }
  }

  /** In every run, second answers included: a chunk that is owned has been written out with contents
      of its own hash, and is announced. */
  lemma OwnedIsVerified(slots: nat, has: seq<Key>, events: seq<Event>, k: nat)
    requires Survives(Initial(slots, has), events)
    ensures var s := Run(Initial(slots, has), events);
            k < |Chunks(s)| && Chunks(s)[k].state == Owned ==>
              && k in s.file && |s.file[k]| == BT_CHUNK_SIZE
              && Fips180.Digest(s.file[k]) == Chunks(s)[k].hash && Chunks(s)[k].hash in s.has
  {
    hide RequestOk;
    NoChunksOk(Initial(slots, has));
    RunKeepsChunks(Initial(slots, has), events);
    var s := Run(Initial(slots, has), events);
    if k < |Chunks(s)| {
      ChunkOfRequest(s, k);
    }
  }

  // -------------------------------------------------------------- a second answer

  /** Two slots for one peer; DATA of either chunk then goes to the first. */
  ghost predicate Doubled(s: State, peer: int)
  {
    exists i, j :: 0 <= i < j < |s.slots| && HeldBy(peer)(s.slots[i]) && HeldBy(peer)(s.slots[j])
  }

  /** An IHAVE from a peer that holds a slot: with a wanted chunk on offer and a free slot the peer
      gets a second one; with nothing wanted on offer it is marked idle while it sends. Only the
      third case, a wanted chunk and no free slot, keeps the invariant. */
  lemma SecondAnswerIff(s: State, peer: int, hashes: seq<Key>, now: int)
    requires Inv(s) && peer > 0 && Find(s.slots, HeldBy(peer)) < |s.slots|
    ensures var s' := OnIHave(s, peer, hashes, now);
            var wanted := Find(Chunks(s), Wanted(hashes)) < |Chunks(s)|;
            var room := Find(s.slots, Vacant()) < |s.slots|;
            && (Doubled(s', peer) <==> wanted && room)
            && (Inv(s') <==> wanted && !room)
  {
    hide RequestOk, SlotsOk, ConnectionsOk, Pick, UpdateConnections;
    var i := Find(s.slots, HeldBy(peer));
    assert IsFirst(s.slots, HeldBy(peer), i);
    assert HeldBy(peer)(s.slots[i]);
    var m := SlotAndChunk(s, i);
    UpdateKeepsInv(s, peer, hashes);
    var known := UpdateConnections(s, peer, hashes);
    var chunks := s.request.value;
    var k := Find(chunks, Wanted(hashes));
    assert IsFirst(chunks, Wanted(hashes), k);
    if k == |chunks| {
      NotWanted(known, i, peer, hashes, now);
    } else {
      assert Wanted(hashes)(chunks[k]);
      WantedAgain(known, i, k, peer, hashes, now);
    }
  }

  /** What a second start does to slots: of the two, the one in front gets packet 0. If that is the slot
      already at work, it counts as heard from now, and the new slot has no record; otherwise the slot
      at work is left alone. */
  lemma SecondSlotIs(s: State, i: nat, v: nat, peer: int, hash: Key, now: int)
    requires Inv(s) && i < |s.slots| && s.slots[i].Busy? && s.slots[i].peer == peer
    requires v < |s.slots| && s.slots[v].Free? && forall j :: 0 <= j < v ==> s.slots[j].Busy?
    ensures StartDownload(s, peer, hash, now) == s.(slots :=
              if i < v then s.slots[v := Busy(peer, hash, None, now, [])][i := s.slots[i].(lastTime := now)]
              else s.slots[v := Busy(peer, hash, Some(0), now, [])])
  {
    hide RequestOk, ConnectionsOk;
    FirstIsFound(s.slots, Vacant(), v);
    HeldSlot(s, i);
    var more := s.slots[v := Busy(peer, hash, None, now, [])];
    var first := if i < v then i else v;
    forall j | 0 <= j < first
      ensures !HeldBy(peer)(more[j])
    {
      assert !HeldBy(peer)(s.slots[j]);
    }
    FirstIsFound(more, HeldBy(peer), first);
    var k := SlotAndChunk(s, i);
  }

  lemma HolderIsOnly(s: State, i: nat, peer: int)
    requires Inv(s) && i < |s.slots| && HeldBy(peer)(s.slots[i])
    ensures !Doubled(s, peer)
  {
    hide RequestOk, ConnectionsOk;
  }

  lemma NotWanted(s: State, i: nat, peer: int, hashes: seq<Key>, now: int)
    requires Inv(s) && s.request.Some? && i < |s.slots| && HeldBy(peer)(s.slots[i])
    requires Find(s.request.value, Wanted(hashes)) == |s.request.value|
    ensures var s' := Pick(s, peer, hashes, now); !Doubled(s', peer) && !Inv(s')
  {
    hide RequestOk, SlotsOk, ConnectionsOk;
    SlotHasConnection(s, i);
    HolderIsOnly(s, i, peer);
    var s' := Pick(s, peer, hashes, now);
    var j := Find(s.connections, At(peer));
    assert IsFirst(s.connections, At(peer), j);
    assert At(peer)(s.connections[j]);
    if Inv(s') {
      IdleIsUnused(s', j);
    }
  }

  lemma WantedAgain(s: State, i: nat, k: nat, peer: int, hashes: seq<Key>, now: int)
    requires Inv(s) && s.request.Some? && i < |s.slots| && HeldBy(peer)(s.slots[i])
    requires k == Find(s.request.value, Wanted(hashes)) < |s.request.value| && Wanted(hashes)(s.request.value[k])
    ensures var s' := Pick(s, peer, hashes, now);
            var room := Find(s.slots, Vacant()) < |s.slots|;
            (Doubled(s', peer) <==> room) && (Inv(s') <==> !room)
  {
    hide RequestOk, SlotsOk, ConnectionsOk, MarkPeer;
    HolderIsOnly(s, i, peer);
    PickedKeepsInv(s, k);
    var picked := WithChunk(s, k, s.request.value[k].(state := Receiving));
    MarkKeepsInv(picked, peer, true);
    var s' := Pick(s, peer, hashes, now);
    var v := Find(s.slots, Vacant());
    assert IsFirst(s.slots, Vacant(), v);
    if v < |s.slots| {
      assert Vacant()(s.slots[v]);
      assert HeldBy(peer)(s'.slots[i]) && HeldBy(peer)(s'.slots[v]);
      if Inv(s') {
        HolderIsOnly(s', i, peer);
      }
    }
  }

  // ------------------------------------------------------ runs into the failures

  /** A request has been made, and peer 1 has offered its first chunk while a slot was free. */
  function Offered(slots: nat, has: seq<Key>, hashes: seq<Key>, now: int): State
    requires slots >= 1 && |hashes| >= 1
  {
    State(Some(Blank(hashes)[0 := Chunk(hashes[0], Receiving, false, [])]),
          Initial(slots, has).slots[0 := Busy(1, hashes[0], Some(0), now, [])],
          [Connection(1, true, [hashes[0]])], has, map[])
  }

  lemma OfferIsTaken(slots: nat, has: seq<Key>, hashes: seq<Key>, now: int)
    requires slots >= 1 && |hashes| >= 1 && Plain(UserGet(hashes))
    ensures var s0 := Initial(slots, has);
            var s1 := OnGet(s0, hashes);
            && Expected(s0, UserGet(hashes)) && Expected(s1, IHave(1, [hashes[0]], now))
            && OnIHave(s1, 1, [hashes[0]], now) == Offered(slots, has, hashes, now)
    ensures Inv(Offered(slots, has, hashes, now)) && NoneStranded(Offered(slots, has, hashes, now))
  {
    hide SchedulerInvariant.Inv, StartDownload;
    var s0, offer := Initial(slots, has), [hashes[0]];
    var s1 := OnGet(s0, hashes);
    InitialInv(slots, has);
    StepKeepsInv(s0, UserGet(hashes));
    NoSlotMeansUnused(s1, 1);
    StepKeepsInv(s1, IHave(1, offer, now));
    var s2 := UpdateConnections(s1, 1, offer);
    FirstIsFound(s2.request.value, Wanted(offer), 0);
    var c := s2.request.value[0].(state := Receiving);
    FirstIsFound(s2.connections, At(1), 0);
    var s3 := MarkPeer(WithChunk(s2, 0, c), 1, true);
    FirstIsFound(s3.slots, Vacant(), 0);
    StartsFresh(s3, 1, hashes[0], now);
    var s := Offered(slots, has, hashes, now);
    assert s.slots[0].Busy? && s.slots[0].hash == hashes[0];
  }

  lemma SurvivesTwo(s: State, a: Event, b: Event, more: seq<Event>)
    requires Plain(a) && Step(s, a).Ok? && Plain(b) && Step(Step(s, a).s, b).Ok?
    requires Survives(Step(Step(s, a).s, b).s, more)
    ensures Survives(s, [a, b] + more)
    ensures Run(s, [a, b] + more) == Run(Step(Step(s, a).s, b).s, more)
  {
    hide Step, Plain;
    var events := [a, b] + more;
    assert events[1..] == [b] + more && events[1..][1..] == more;
  }

  lemma PossibleTwo(s: State, a: Event, b: Event, more: seq<Event>)
    requires Expected(s, a) && Step(s, a).Ok? && Expected(Step(s, a).s, b) && Step(Step(s, a).s, b).Ok?
    requires Possible(Step(Step(s, a).s, b).s, more)
    ensures Possible(s, [a, b] + more)
    ensures Run(s, [a, b] + more) == Run(Step(Step(s, a).s, b).s, more)
  {
    hide Step, Expected;
    var events := [a, b] + more;
    assert events[1..] == [b] + more && events[1..][1..] == more;
  }

  /** A peer refuses while it holds a slot: its chunk stays marked, and nobody sends it. */
  lemma DenialRun(slots: nat, has: seq<Key>, h: Key, now: int)
    requires slots >= 1
    ensures var events := [UserGet([h]), IHave(1, [h], now)] + [Denied(1)];
            Possible(Initial(slots, has), events) && Stranded(Run(Initial(slots, has), events), 0)
  {
    hide SchedulerInvariant.Inv, OnIHave;
    OfferIsTaken(slots, has, [h], now);
    var s := Offered(slots, has, [h], now);
    FirstIsFound(s.slots, HeldBy(1), 0);
    RunOfOne(s, Denied(1));
    PossibleTwo(Initial(slots, has), UserGet([h]), IHave(1, [h], now), [Denied(1)]);
  }

  lemma RunOfOne(s: State, e: Event)
    requires Step(s, e).Ok?
    ensures Run(s, [e]) == Step(s, e).s
    ensures Expected(s, e) ==> Possible(s, [e])
    ensures Plain(e) ==> Survives(s, [e])
  {
    hide Step, Expected, Plain;
    assert [e][1..] == [];
    assert Run(Step(s, e).s, []) == Step(s, e).s;
  }

  /** A second peer offers the second chunk while the only slot is busy: the chunk is marked, and no
      download starts. */
  lemma FullRun(has: seq<Key>, g: Key, h: Key, now: int)
    requires g != h
    ensures var events := [UserGet([g, h]), IHave(1, [g], now)] + [IHave(2, [h], now)];
            Possible(Initial(1, has), events) && !NoneStranded(Run(Initial(1, has), events))
  {
    hide SchedulerInvariant.Inv, OnIHave, NoneStranded;
    OfferIsTaken(1, has, [g, h], now);
    var s, e := Offered(1, has, [g, h], now), IHave(2, [h], now);
    NoSlotMeansUnused(s, 2);
    FirstIsFound(s.slots, Vacant(), 1);
    FirstIsFound(Chunks(s), Wanted([h]), 1);
    StepStrandsIff(s, e);
    RunOfOne(s, e);
    PossibleTwo(Initial(1, has), UserGet([g, h]), IHave(1, [g], now), [e]);
  }

  /** Peer 1 answers a second WHOHAS with the second chunk, and holds two slots. */
  lemma DoubledRun(slots: nat, has: seq<Key>, g: Key, h: Key, now: int)
    requires slots >= 2 && g != h
    ensures var events := [UserGet([g, h]), IHave(1, [g], now)] + [IHave(1, [h], now)];
            Survives(Initial(slots, has), events) && Doubled(Run(Initial(slots, has), events), 1)
  {
    hide SchedulerInvariant.Inv, OnIHave, NoneStranded, Doubled;
    OfferIsTaken(slots, has, [g, h], now);
    var s, e := Offered(slots, has, [g, h], now), IHave(1, [h], now);
    FirstIsFound(s.slots, HeldBy(1), 0);
    FirstIsFound(s.slots, Vacant(), 1);
    FirstIsFound(Chunks(s), Wanted([h]), 1);
    SecondAnswerIff(s, 1, [h], now);
    RunOfOne(s, e);
    SurvivesTwo(Initial(slots, has), UserGet([g, h]), IHave(1, [g], now), [e]);
  }

  /** The state of that run when there are two slots: the second has no packet record. */
  function TwoSlots(has: seq<Key>, g: Key, h: Key, now: int): State
  {
    State(Some([Chunk(g, Receiving, false, []), Chunk(h, Receiving, false, [])]),
          [Busy(1, g, Some(0), now, []), Busy(1, h, None, now, [])],
          [Connection(1, true, [h])], has, map[])
  }

  lemma SecondSlotIsTaken(has: seq<Key>, g: Key, h: Key, now: int)
    requires g != h
    ensures OnIHave(Offered(2, has, [g, h], now), 1, [h], now) == TwoSlots(has, g, h, now)
  {
    var s := Offered(2, has, [g, h], now);
    FirstIsFound(s.connections, At(1), 0);
    var s1 := UpdateConnections(s, 1, [h]);
    FirstIsFound(s1.request.value, Wanted([h]), 1);
    var s2 := WithChunk(s1, 1, s1.request.value[1].(state := Receiving));
    FirstIsFound(s2.connections, At(1), 0);
    var s3 := MarkPeer(s2, 1, true);
    FirstIsFound(s3.slots, Vacant(), 1);
    FirstIsFound(s3.slots[1 := Busy(1, h, None, now, [])], HeldBy(1), 0);
    assert s3.request.value == TwoSlots(has, g, h, now).request.value;
    assert StartDownload(s3, 1, h, now).slots == TwoSlots(has, g, h, now).slots;
  }

  /** After the first timeout: the first slot is free, its chunk put back, the peer forgotten. */
  function OneSlotLeft(has: seq<Key>, g: Key, h: Key, now: int): State
  {
    State(Some([Chunk(g, NotStarted, false, []), Chunk(h, Receiving, false, [])]),
          [Free, Busy(1, h, None, now, [])], [], has, map[])
  }

  lemma FirstTimeout(has: seq<Key>, g: Key, h: Key, now: int, later: int, rto: int)
    requires later - now > ABORT_COEFF * rto
    ensures OnTick(TwoSlots(has, g, h, now), later, rto) == OneSlotLeft(has, g, h, now)
  {
    var s := TwoSlots(has, g, h, now);
    FirstIsFound(s.slots, Expired(later, rto), 0);
    FirstIsFound(s.slots, HeldBy(1), 0);
    FirstIsFound(s.request.value, Named(g), 0);
    FirstIsFound(s.connections, At(1), 0);
    var s' := ForgetPeer(s, later, rto).0;
    assert s'.request.value == OneSlotLeft(has, g, h, now).request.value;
    assert s'.connections == [] && s'.slots == [Free, Busy(1, h, None, now, [])];
    FirstIsFound(s'.connections, Useful(s'.connections, s'.request.value), 0);
  }

  lemma SecondTimeout(has: seq<Key>, g: Key, h: Key, now: int, later: int, rto: int)
    requires later - now > ABORT_COEFF * rto
    ensures Stranded(OnTick(OneSlotLeft(has, g, h, now), later, rto), 1)
  {
    var s := OneSlotLeft(has, g, h, now);
    FirstIsFound(s.slots, Expired(later, rto), 1);
    FirstIsFound(s.slots, HeldBy(1), 1);
  }

  /** Both slots of that peer then expire. The first timeout forgets the peer; the second finds no
      peer to forget and leaves the second chunk marked, with nobody to send it. */
  lemma DoubledStrandsRun(has: seq<Key>, g: Key, h: Key, now: int, later: int, rto: int)
    requires g != h && later - now > ABORT_COEFF * rto
    ensures var more := [IHave(1, [h], now), Tick(later, rto)] + [Tick(later, rto)];
            var events := [UserGet([g, h]), IHave(1, [g], now)] + more;
            Survives(Initial(2, has), events) && Stranded(Run(Initial(2, has), events), 1)
  {
    hide SchedulerInvariant.Inv, OnIHave, OnTick, NoneStranded, Stranded;
    OfferIsTaken(2, has, [g, h], now);
    SecondSlotIsTaken(has, g, h, now);
    FirstTimeout(has, g, h, now, later, rto);
    SecondTimeout(has, g, h, now, later, rto);
    var last := [Tick(later, rto)];
    RunOfOne(OneSlotLeft(has, g, h, now), Tick(later, rto));
    var s := Offered(2, has, [g, h], now);
    SurvivesTwo(s, IHave(1, [h], now), Tick(later, rto), last);
    SurvivesTwo(Initial(2, has), UserGet([g, h]), IHave(1, [g], now), [IHave(1, [h], now), Tick(later, rto)] + last);
  }

  // --------------------------------------------------------------- owned, and undone

  /** DATA has kept the first of the two slots alive. */
  function KeptAlive(has: seq<Key>, g: Key, h: Key, now: int, t: int): State
  {
    TwoSlots(has, g, h, now).(slots := [Busy(1, g, Some(0), t, []), Busy(1, h, None, now, [])])
  }

  lemma LaterDataKeepsAlive(has: seq<Key>, g: Key, h: Key, now: int, t: int)
    requires g != h
    ensures Step(TwoSlots(has, g, h, now), Data(1, 5, [], t)) == Ok(KeptAlive(has, g, h, now, t))
  {
    var s := TwoSlots(has, g, h, now);
    FirstIsFound(s.slots, HeldBy(1), 0);
    FirstIsFound(s.request.value, Named(g), 0);
    assert s.slots[0 := Busy(1, g, Some(0), t, [])] == KeptAlive(has, g, h, now, t).slots;
  }

  /** The second slot expires: its chunk is put back and the peer forgotten, but the slot that is freed
      is the first. */
  function WrongSlotFreed(has: seq<Key>, g: Key, h: Key, now: int): State
  {
    State(Some([Chunk(g, Receiving, false, []), Chunk(h, NotStarted, false, [])]),
          [Free, Busy(1, h, None, now, [])], [], has, map[])
  }

  lemma TickFreesWrongSlot(has: seq<Key>, g: Key, h: Key, now: int, t: int, later: int, rto: int)
    requires g != h && later - now > ABORT_COEFF * rto && later - t <= ABORT_COEFF * rto
    ensures OnTick(KeptAlive(has, g, h, now, t), later, rto) == WrongSlotFreed(has, g, h, now)
  {
    var s := KeptAlive(has, g, h, now, t);
    FirstIsFound(s.slots, Expired(later, rto), 1);
    FirstIsFound(s.slots, HeldBy(1), 0);
    FirstIsFound(s.request.value, Named(h), 1);
    FirstIsFound(s.connections, At(1), 0);
    var s' := ForgetPeer(s, later, rto).0;
    assert s'.request.value == WrongSlotFreed(has, g, h, now).request.value;
    assert s'.connections == [] && s'.slots == [Free, Busy(1, h, None, now, [])];
    FirstIsFound(s'.connections, Useful(s'.connections, s'.request.value), 0);
  }

  /** Peer 2 has taken over chunk `h`, and its first `m` packets have come. */
  function TakenOver(has: seq<Key>, g: Key, h: Key, now: int, later: int, chunk: seq<byte>, m: nat): State
    requires |chunk| == BT_CHUNK_SIZE
  {
    var bytes := chunk[..Receiver.PrefixLength(m)];
    State(Some([Chunk(g, Receiving, false, []), Chunk(h, Receiving, m > 0, bytes)]),
          [Busy(2, h, Some(m), later, bytes), Busy(1, h, None, now, [])],
          [Connection(2, true, [h])], has, map[])
  }

  lemma SecondPeerTakesOver(has: seq<Key>, g: Key, h: Key, now: int, later: int, chunk: seq<byte>)
    requires g != h && |chunk| == BT_CHUNK_SIZE
    ensures OnIHave(WrongSlotFreed(has, g, h, now), 2, [h], later) == TakenOver(has, g, h, now, later, chunk, 0)
  {
    var s := WrongSlotFreed(has, g, h, now);
    FirstIsFound(s.connections, At(2), 0);
    var s1 := UpdateConnections(s, 2, [h]);
    FirstIsFound(s1.request.value, Wanted([h]), 1);
    var s2 := WithChunk(s1, 1, s1.request.value[1].(state := Receiving));
    FirstIsFound(s2.connections, At(2), 0);
    var s3 := MarkPeer(s2, 2, true);
    FirstIsFound(s3.slots, Vacant(), 0);
    FirstIsFound(s3.slots[0 := Busy(2, h, None, later, [])], HeldBy(2), 0);
    assert s3.request.value == TakenOver(has, g, h, now, later, chunk, 0).request.value;
    assert StartDownload(s3, 2, h, later).slots == TakenOver(has, g, h, now, later, chunk, 0).slots;
  }

  /** The packets of a chunk, from number `m + 1` on. */
  function Packets(chunk: seq<byte>, m: nat, now: int): (events: seq<Event>)
    requires |chunk| == BT_CHUNK_SIZE && m <= MAX_PACKET_PER_CHUNK
    decreases MAX_PACKET_PER_CHUNK - m
  {
    if m == MAX_PACKET_PER_CHUNK then []
    else [Data(2, m + 1, Sender.Slice(chunk, m + 1), now)] + Packets(chunk, m + 1, now)
  }

  lemma NextSlice(chunk: seq<byte>, m: nat)
    requires |chunk| == BT_CHUNK_SIZE && m < MAX_PACKET_PER_CHUNK
    ensures Receiver.Clamp(Sender.Slice(chunk, m + 1)) == Sender.Slice(chunk, m + 1)
    ensures chunk[..Receiver.PrefixLength(m)] + Sender.Slice(chunk, m + 1) == chunk[..Receiver.PrefixLength(m + 1)]
    ensures Receiver.PrefixLength(m) < Receiver.PrefixLength(m + 1) <= BT_CHUNK_SIZE
    ensures Receiver.PrefixLength(m + 1) == BT_CHUNK_SIZE <==> m + 1 == MAX_PACKET_PER_CHUNK
  {
  }

  lemma OnePacket(has: seq<Key>, g: Key, h: Key, now: int, later: int, chunk: seq<byte>, m: nat)
    requires g != h && |chunk| == BT_CHUNK_SIZE && m + 1 < MAX_PACKET_PER_CHUNK
    ensures Step(TakenOver(has, g, h, now, later, chunk, m), Data(2, m + 1, Sender.Slice(chunk, m + 1), later))
            == Ok(TakenOver(has, g, h, now, later, chunk, m + 1))
  {
    hide Sender.Slice, Receiver.Clamp, Receiver.PrefixLength, SaveChunk, Pick, OfferedBy, AbortDownload;
    NextSlice(chunk, m);
    var s, r := TakenOver(has, g, h, now, later, chunk, m), TakenOver(has, g, h, now, later, chunk, m + 1);
    FirstIsFound(s.slots, HeldBy(2), 0);
    FirstIsFound(s.request.value, Named(h), 1);
    var tracked := s.(slots := s.slots[0 := s.slots[0].(last := Some(m + 1))]);
    assert |chunk[..Receiver.PrefixLength(m)] + Sender.Slice(chunk, m + 1)| < BT_CHUNK_SIZE;
    var saved := Save(tracked, 0, 1, Sender.Slice(chunk, m + 1), later).s;
    assert saved.request.value == r.request.value && saved.slots == r.slots;
  }

  /** The chunk is owned and written out; its first slot for peer 1 is still there. */
  function Finished(has: seq<Key>, g: Key, h: Key, now: int, chunk: seq<byte>): State
  {
    State(Some([Chunk(g, Receiving, false, []), Chunk(h, Owned, false, [])]),
          [Free, Busy(1, h, None, now, [])], [Connection(2, false, [h])],
          if h in has then has else has + [h], map[1 := chunk])
  }

  lemma LastPacket(has: seq<Key>, g: Key, now: int, later: int, chunk: seq<byte>)
    requires |chunk| == BT_CHUNK_SIZE && g != Fips180.Digest(chunk)
    ensures var h := Fips180.Digest(chunk);
            var e := Data(2, MAX_PACKET_PER_CHUNK, Sender.Slice(chunk, MAX_PACKET_PER_CHUNK), later);
            Step(TakenOver(has, g, h, now, later, chunk, MAX_PACKET_PER_CHUNK - 1), e)
            == Ok(Finished(has, g, h, now, chunk))
  {
    hide Sender.Slice, Receiver.Clamp, Receiver.PrefixLength, Fips180.Digest;
    NextSlice(chunk, MAX_PACKET_PER_CHUNK - 1);
    assert chunk[..BT_CHUNK_SIZE] == chunk;
    var h, m := Fips180.Digest(chunk), MAX_PACKET_PER_CHUNK - 1;
    var s, r := TakenOver(has, g, h, now, later, chunk, m), Finished(has, g, h, now, chunk);
    FirstIsFound(s.slots, HeldBy(2), 0);
    FirstIsFound(s.request.value, Named(h), 1);
    var tracked := s.(slots := s.slots[0 := s.slots[0].(last := Some(m + 1))]);
    var full := WithChunk(tracked, 1, tracked.request.value[1].(hasBuffer := true, bytes := chunk));
    var saved := SaveChunk(full, 1);
    FirstIsFound(saved.slots, HeldBy(2), 0);
    var freed := AbortDownload(saved, 2);
    assert freed.slots == r.slots && freed.request.value == r.request.value;
    OfferOfOne(freed.connections);
    FirstIsFound(freed.request.value, Wanted([h]), 2);
    FirstIsFound(freed.connections, At(2), 0);
  }

  lemma OfferOfOne(connections: seq<Connection>)
    requires |connections| == 1
    ensures OfferedBy(connections, connections[0].peer) == connections[0].hashes
  {
    assert connections[..0] == [];
  }

  lemma {:induction false} AllPackets(has: seq<Key>, g: Key, now: int, later: int, chunk: seq<byte>, m: nat)
    requires |chunk| == BT_CHUNK_SIZE && g != Fips180.Digest(chunk) && m < MAX_PACKET_PER_CHUNK
    ensures var h, events := Fips180.Digest(chunk), Packets(chunk, m, later);
            var s := TakenOver(has, g, h, now, later, chunk, m);
            Survives(s, events) && Run(s, events) == Finished(has, g, h, now, chunk)
    decreases MAX_PACKET_PER_CHUNK - m
  {
    hide Step, TakenOver, Finished, Fips180.Digest;
    var h, events := Fips180.Digest(chunk), Packets(chunk, m, later);
    var s := TakenOver(has, g, h, now, later, chunk, m);
    assert events[1..] == Packets(chunk, m + 1, later);
    if m + 1 == MAX_PACKET_PER_CHUNK {
      LastPacket(has, g, now, later, chunk);
      assert events[1..] == [];
    } else {
      OnePacket(has, g, h, now, later, chunk, m);
      AllPackets(has, g, now, later, chunk, m + 1);
    }
  }

  /** When the slot left behind expires, its peer is not among the connections, and the chunk starts
      over although it is owned. */
  lemma LeftoverUndoes(has: seq<Key>, g: Key, h: Key, now: int, chunk: seq<byte>, end: int, rto: int)
    requires g != h && end - now > ABORT_COEFF * rto
    ensures var s := Finished(has, g, h, now, chunk);
            && Find(s.slots, Expired(end, rto)) < |s.slots| && !ForgetPeer(s, end, rto).1
            && s.request.value[1].state == Owned
            && var s' := OnTick(s, end, rto); |Chunks(s')| == 2 && Chunks(s')[1].state == NotStarted
  {
    var s := Finished(has, g, h, now, chunk);
    FirstIsFound(s.slots, Expired(end, rto), 1);
    FirstIsFound(s.slots, HeldBy(1), 1);
    FirstIsFound(s.request.value, Named(h), 1);
    FirstIsFound(s.connections, At(1), 1);
  }

  /** The events of that run: two slots for peer 1, of which the second expires first; peer 2 fetches
      the chunk of the second. */
  function UndoingEvents(g: Key, chunk: seq<byte>, now: int, t: int, later: int, rto: int): seq<Event>
    requires |chunk| == BT_CHUNK_SIZE
  {
    var h := Fips180.Digest(chunk);
    [UserGet([g, h]), IHave(1, [g], now)] +
    ([IHave(1, [h], now), Data(1, 5, [], t)] +
     ([Tick(later, rto), IHave(2, [h], later)] + Packets(chunk, 0, later)))
  }

  /** After a second answer neither of two things holds that hold without: an owned chunk can be undone,
      and a slot can expire whose peer is unknown. */
  lemma OwnedIsUndoneRun(has: seq<Key>, g: Key, chunk: seq<byte>, now: int, t: int, later: int, end: int, rto: int)
    requires |chunk| == BT_CHUNK_SIZE && g != Fips180.Digest(chunk)
    requires later - now > ABORT_COEFF * rto && later - t <= ABORT_COEFF * rto && end - now > ABORT_COEFF * rto
    ensures var events := UndoingEvents(g, chunk, now, t, later, rto);
            var s := Run(Initial(2, has), events);
            && Survives(Initial(2, has), events)
            && |Chunks(s)| == 2 && Chunks(s)[1].state == Owned
            && Find(s.slots, Expired(end, rto)) < |s.slots| && !ForgetPeer(s, end, rto).1
            && var s' := OnTick(s, end, rto); |Chunks(s')| == 2 && Chunks(s')[1].state == NotStarted
  {
    hide SchedulerInvariant.Inv, OnIHave, OnTick, OnData, NoneStranded, Packets, Survives, Run, ForgetPeer,
      Fips180.Digest, Offered, TwoSlots, KeptAlive, WrongSlotFreed, TakenOver;
    var h := Fips180.Digest(chunk);
    OfferIsTaken(2, has, [g, h], now);
    SecondSlotIsTaken(has, g, h, now);
    LaterDataKeepsAlive(has, g, h, now, t);
    TickFreesWrongSlot(has, g, h, now, t, later, rto);
    SecondPeerTakesOver(has, g, h, now, later, chunk);
    AllPackets(has, g, now, later, chunk, 0);
    LeftoverUndoes(has, g, h, now, chunk, end, rto);
    var packets := Packets(chunk, 0, later);
    SurvivesTwo(KeptAlive(has, g, h, now, t), Tick(later, rto), IHave(2, [h], later), packets);
    var rest := [Tick(later, rto), IHave(2, [h], later)] + packets;
    SurvivesTwo(Offered(2, has, [g, h], now), IHave(1, [h], now), Data(1, 5, [], t), rest);
    SurvivesTwo(Initial(2, has), UserGet([g, h]), IHave(1, [g], now), [IHave(1, [h], now), Data(1, 5, [], t)] + rest);
  }
}
