/**
  The download side of a peer as the C program runs it: an array of slots and an array of chunks
  updated in place, a list of connections and a table of owned chunks that are reassigned, and the
  search loops of util.c and keep_track.c. Every method is proved against `Scheduler`.
 */
module Downloader {
  import opened Wrappers
  import opened Common
  import opened Scheduler
  import opened SchedulerInvariant
  import Fips180
  import Sha1
  import Receiver

  lemma OfferedIff(connections: seq<Connection>, peer: int, hash: Key)
    ensures hash in OfferedBy(connections, peer) <==>
              exists j :: 0 <= j < |connections| && connections[j].peer == peer && hash in connections[j].hashes
  {
    if connections != [] {
      var n := |connections| - 1;
      OfferedIff(connections[..n], peer, hash);
      assert forall j :: 0 <= j < n ==> connections[..n][j] == connections[j];
    }
  }

  class Downloader {
    /** `current_request`, null between requests. */
    var chunks: array?<Chunk>
    const slots: array<Slot>
    var connections: seq<Connection>
    var has: seq<Key>
    var file: map<nat, seq<byte>>

    ghost function Value(): State
      reads this, chunks, slots
    {
      State(if chunks == null then None else Some(chunks[..]), slots[..], connections, has, file)
    }

    constructor (maxConns: nat, has: seq<Key>)
      ensures Value() == State(None, seq(maxConns, _ => Free), [], has, map[]) && fresh(slots)
    {
      chunks := null;
      slots := new Slot[maxConns](_ => Free);
      connections, this.has, file := [], has, map[];
    }

    // ------------------------------------------------------------- keep_track.c

    method GetDownloadIndexById(peer: int) returns (index: int)
      ensures var i := Find(slots[..], HeldBy(peer)); index == if i == slots.Length then -1 else i
    {
      for i := 0 to slots.Length
        invariant forall j :: 0 <= j < i ==> !HeldBy(peer)(slots[..][j])
      {
        if slots[i].Busy? && slots[i].peer == peer {
          FirstIsFound(slots[..], HeldBy(peer), i);
          return i;
        }
      }
      FirstIsFound(slots[..], HeldBy(peer), slots.Length);
      return -1;
    }

    /** `track_data_packet`: a peer without a slot gets its own number back. */
    method TrackDataPacket(peer: int, num: nat, now: int) returns (last: nat)
      modifies slots
      ensures Value() == old(Value()).(slots := TrackPacket(old(slots[..]), peer, num, now))
      ensures var i := Find(old(slots[..]), HeldBy(peer));
              last == if i == slots.Length then num else Receiver.TrackFrom(old(slots[..])[i].last, num)
    {
      var index := GetDownloadIndexById(peer);
      if index == -1 {
        return num;
      }
      last := Receiver.TrackFrom(slots[index].last, num);
      slots[index] := slots[index].(last := Some(last), lastTime := now);
    }

    method StartDownload(peer: int, hash: Key, now: int) returns (started: bool)
      modifies slots
      ensures Value() == Scheduler.StartDownload(old(Value()), peer, hash, now)
      ensures started <==> Find(old(slots[..]), Vacant()) < slots.Length
    {
      for i := 0 to slots.Length
        invariant slots[..] == old(slots[..])
        invariant forall j :: 0 <= j < i ==> !Vacant()(slots[..][j])
      {
        if slots[i].Free? {
          FirstIsFound(slots[..], Vacant(), i);
          slots[i] := Busy(peer, hash, None, now, []);
          var _ := TrackDataPacket(peer, 0, now);
          return true;
        }
      }
      FirstIsFound(slots[..], Vacant(), slots.Length);
      return false;
    }

    method AbortDownload(peer: int) returns (aborted: bool)
      modifies slots
      ensures Value() == Scheduler.AbortDownload(old(Value()), peer)
      ensures aborted <==> Find(old(slots[..]), HeldBy(peer)) < slots.Length
    {
      var index := GetDownloadIndexById(peer);
      if index == -1 {
        return false;
      }
      slots[index] := Free;
      return true;
    }

    /** Frees the first slot that has been silent for too long; peer 0 when there is none. */
    method CleanDownloadTimeout(now: int, rto: int) returns (peer: int, hash: Key)
      requires forall i :: 0 <= i < slots.Length && slots[i].Busy? ==> slots[i].peer != 0
      modifies slots
      ensures var i := Find(old(slots[..]), Expired(now, rto));
              if i == slots.Length then peer == 0 && Value() == old(Value())
              else
                && peer == old(slots[..])[i].peer && peer != 0 && hash == old(slots[..])[i].hash
                && Value() == Scheduler.AbortDownload(old(Value()), peer)
    {
      for i := 0 to slots.Length
        invariant slots[..] == old(slots[..])
        invariant forall j :: 0 <= j < i ==> !Expired(now, rto)(slots[..][j])
      {
        if slots[i].Busy? && now - slots[i].lastTime > ABORT_COEFF * rto {
          FirstIsFound(slots[..], Expired(now, rto), i);
          peer, hash := slots[i].peer, slots[i].hash;
          var _ := AbortDownload(peer);
          return;
        }
      }
      FirstIsFound(slots[..], Expired(now, rto), slots.Length);
      return 0, [];
    }

    // ------------------------------------------------------------------ util.c

    method GetChunkId(hash: Key) returns (id: int)
      requires chunks != null
      ensures var k := Find(chunks[..], Named(hash)); id == if k == chunks.Length then -1 else k
    {
      for k := 0 to chunks.Length
        invariant forall j :: 0 <= j < k ==> !Named(hash)(chunks[..][j])
      {
        if chunks[k].hash == hash {
          FirstIsFound(chunks[..], Named(hash), k);
          return k;
        }
      }
      FirstIsFound(chunks[..], Named(hash), chunks.Length);
      return -1;
    }

    method MarkPeerState(peer: int, working: bool)
      modifies this`connections
      ensures Value() == MarkPeer(old(Value()), peer, working)
    {
      for j := 0 to |connections|
        invariant connections == old(connections)
        invariant forall i :: 0 <= i < j ==> !At(peer)(connections[i])
      {
        if connections[j].peer == peer {
          FirstIsFound(connections, At(peer), j);
          connections := connections[j := connections[j].(working := working)];
          return;
        }
      }
      FirstIsFound(connections, At(peer), |connections|);
    }

    method UpdateConnections(peer: int, hashes: seq<Key>)
      modifies this`connections
      ensures Value() == Scheduler.UpdateConnections(old(Value()), peer, hashes)
    {
      for j := 0 to |connections|
        invariant connections == old(connections)
        invariant forall i :: 0 <= i < j ==> !At(peer)(connections[i])
      {
        if connections[j].peer == peer {
          FirstIsFound(connections, At(peer), j);
          connections := connections[j := connections[j].(hashes := hashes)];
          return;
        }
      }
      FirstIsFound(connections, At(peer), |connections|);
      connections := [Connection(peer, false, hashes)] + connections;
    }

    method PeerContainChunk(peer: int, hash: Key) returns (contains: bool)
      ensures contains <==> hash in OfferedBy(connections, peer)
    {
      OfferedIff(connections, peer, hash);
      for j := 0 to |connections|
        invariant forall i :: 0 <= i < j ==> !(connections[i].peer == peer && hash in connections[i].hashes)
      {
        if connections[j].peer == peer {
          for i := 0 to |connections[j].hashes|
            invariant hash !in connections[j].hashes[..i]
          {
            if connections[j].hashes[i] == hash {
              return true;
            }
          }
        }
      }
      return false;
    }

    /** `pick_a_chunk`; `offer` is what the packet lists. */
    method PickAChunk(offer: seq<Key>) returns (id: int)
      requires chunks != null
      modifies chunks
      ensures var k := Find(old(chunks[..]), Wanted(offer));
              if k == chunks.Length then id == -1 && Value() == old(Value())
              else id == k && Value() == WithChunk(old(Value()), k, old(chunks[..])[k].(state := Receiving))
    {
      for k := 0 to chunks.Length
        invariant chunks[..] == old(chunks[..])
        invariant forall j :: 0 <= j < k ==> !Wanted(offer)(chunks[..][j])
      {
        if chunks[k].state == NotStarted && chunks[k].hash in offer {
          FirstIsFound(chunks[..], Wanted(offer), k);
          chunks[k] := chunks[k].(state := Receiving);
          return k;
        }
      }
      FirstIsFound(chunks[..], Wanted(offer), chunks.Length);
      return -1;
    }

    /** `pick_a_new_chunk`: the same, over all that the peer is known to have. */
    method PickANewChunk(peer: int) returns (id: int)
      requires chunks != null
      modifies chunks
      ensures var k := Find(old(chunks[..]), Wanted(OfferedBy(connections, peer)));
              if k == chunks.Length then id == -1 && Value() == old(Value())
              else id == k && Value() == WithChunk(old(Value()), k, old(chunks[..])[k].(state := Receiving))
    {
      ghost var offer := OfferedBy(connections, peer);
      for k := 0 to chunks.Length
        invariant chunks[..] == old(chunks[..])
        invariant forall j :: 0 <= j < k ==> !Wanted(offer)(chunks[..][j])
      {
        var contains := PeerContainChunk(peer, chunks[k].hash);
        if chunks[k].state == NotStarted && contains {
          FirstIsFound(chunks[..], Wanted(offer), k);
          chunks[k] := chunks[k].(state := Receiving);
          return k;
        }
      }
      FirstIsFound(chunks[..], Wanted(offer), chunks.Length);
      return -1;
    }

    /** What follows a pick, in the IHAVE and DATA cases alike. */
    method FollowPick(peer: int, id: int, now: int) returns (get: Option<Key>)
      requires chunks != null && -1 <= id < chunks.Length
      modifies this`connections, slots
      ensures get.Some? <==> id != -1 && Find(old(slots[..]), Vacant()) < slots.Length
      ensures get.Some? ==> get.value == chunks[id].hash
      ensures Value() == if id == -1 then MarkPeer(old(Value()), peer, false)
                         else Scheduler.StartDownload(MarkPeer(old(Value()), peer, true), peer, chunks[id].hash, now)
    {
      get := None;
      if id != -1 {
        MarkPeerState(peer, true);
        var started := StartDownload(peer, chunks[id].hash, now);
        if started {
          get := Some(chunks[id].hash);
        }
      } else {
        MarkPeerState(peer, false);
      }
    }

    method SaveDataPacket(id: nat, payload: seq<byte>) returns (ok: bool)
      requires chunks != null && id < chunks.Length
      modifies chunks
      ensures var c := old(chunks[..])[id];
              var more := Receiver.Clamp(payload);
              if c.state == Owned then ok && Value() == old(Value())
              else
                && ok == !((c.state == NotStarted && !c.hasBuffer) || |c.bytes| + |more| > BT_CHUNK_SIZE)
                && (ok ==> Value() == WithChunk(old(Value()), id, c.(hasBuffer := true, bytes := c.bytes + more)))
    {
      if chunks[id].state == Owned {
        return true;
      }
      var size := if |payload| > MAX_PAYLOAD_SIZE then MAX_PAYLOAD_SIZE else |payload|;
      if !chunks[id].hasBuffer && chunks[id].state == Receiving {
        chunks[id] := chunks[id].(hasBuffer := true);
      }
      if !chunks[id].hasBuffer || |chunks[id].bytes| + size > BT_CHUNK_SIZE {
        return false;
      }
      assert payload[..size] == Receiver.Clamp(payload);
      chunks[id] := chunks[id].(bytes := chunks[id].bytes + payload[..size]);
      assert chunks[..] == old(chunks[..])[id := chunks[id]];
      return true;
    }

    method UpdateIhaveTable(hash: Key)
      modifies this`has
      ensures has == if hash in old(has) then old(has) else old(has) + [hash]
    {
      for i := 0 to |has|
        invariant has == old(has) && hash !in has[..i]
      {
        if has[i] == hash {
          return;
        }
      }
      has := has + [hash];
    }

    /** 1 when the chunk was full, whether it verified or not. */
    method SaveChunk(id: nat) returns (r: int)
      requires chunks != null && id < chunks.Length && |chunks[id].bytes| <= BT_CHUNK_SIZE
      modifies chunks, this`has, this`file
      ensures var c := old(chunks[..])[id];
              if |c.bytes| == BT_CHUNK_SIZE && c.state != Owned
              then r == 1 && Value() == Scheduler.SaveChunk(old(Value()), id)
              else r == -1 && Value() == old(Value())
    {
      hide Fips180.Digest;
      if |chunks[id].bytes| == BT_CHUNK_SIZE && chunks[id].state != Owned {
        chunks[id] := chunks[id].(state := Owned);
        var hash := Sha1.Shahash(chunks[id].bytes);
        if hash != chunks[id].hash {
          chunks[id] := chunks[id].(state := NotStarted);
        } else {
          file := file[id := chunks[id].bytes];
          UpdateIhaveTable(chunks[id].hash);
        }
        chunks[id] := chunks[id].(hasBuffer := false, bytes := []);
        assert chunks[..] == old(chunks[..])[id := chunks[id]];
        return 1;
      }
      return -1;
    }

    method AllChunkFinished() returns (finished: bool)
      ensures finished <==> chunks != null && Find(chunks[..], Unfinished()) == chunks.Length
    {
      if chunks == null {
        return false;
      }
      for k := 0 to chunks.Length
        invariant forall j :: 0 <= j < k ==> !Unfinished()(chunks[..][j])
      {
        if chunks[k].state != Owned {
          FirstIsFound(chunks[..], Unfinished(), k);
          return false;
        }
      }
      FirstIsFound(chunks[..], Unfinished(), chunks.Length);
      return true;
    }

    /** The chunk of a crashed peer goes back to the start. */
    method ResetChunk(hash: Key)
      requires chunks != null
      modifies chunks
      ensures var k := Find(old(chunks[..]), Named(hash));
              Value() == if k == chunks.Length then old(Value())
                         else WithChunk(old(Value()), k, Chunk(old(chunks[..])[k].hash, NotStarted, false, []))
    {
      var id := GetChunkId(hash);
      if id != -1 {
        chunks[id] := chunks[id].(state := NotStarted);
        if chunks[id].hasBuffer {
          chunks[id] := chunks[id].(hasBuffer := false);
        }
        chunks[id] := chunks[id].(bytes := []);
        assert chunks[..] == old(chunks[..])[id := chunks[id]];
      }
    }

    method RemoveConnection(peer: int) returns (found: bool)
      modifies this`connections
      ensures var j := Find(old(connections), At(peer));
              && found == (j < |old(connections)|)
              && connections == if found then old(connections)[..j] + old(connections)[j + 1..] else old(connections)
    {
      for j := 0 to |connections|
        invariant connections == old(connections)
        invariant forall i :: 0 <= i < j ==> !At(peer)(connections[i])
      {
        if connections[j].peer == peer {
          FirstIsFound(connections, At(peer), j);
          connections := connections[..j] + connections[j + 1..];
          return true;
        }
      }
      FirstIsFound(connections, At(peer), |connections|);
      return false;
    }

    method DownloadPeerCrash(now: int, rto: int) returns (found: bool)
      requires forall i :: 0 <= i < slots.Length && slots[i].Busy? ==> slots[i].peer != 0
      modifies slots, chunks, this`connections
      ensures (Value(), found) == ForgetPeer(old(Value()), now, rto)
    {
      var peer, hash := CleanDownloadTimeout(now, rto);
      if peer <= 0 || connections == [] || chunks == null {
        return false;
      }
      ResetChunk(hash);
      found := RemoveConnection(peer);
    }

    /** `pick_a_chunk_after_crash` and the start of the new download. */
    method PickAChunkAfterCrash(now: int) returns (get: Option<(int, Key)>)
      requires chunks != null
      modifies chunks, slots, this`connections
      ensures Value() == TakeOver(old(Value()), now) && get == TakeOverGet(old(Value()))
    {
      for j := 0 to |connections|
        invariant Value() == old(Value())
        invariant forall i :: 0 <= i < j ==> !Useful(connections, chunks[..])(connections[i])
      {
        if !connections[j].working {
          var peer := connections[j].peer;
          var id := PickANewChunk(peer);
          if id != -1 {
            FirstIsFound(connections, Useful(connections, old(chunks[..])), j);
            var hash := FollowPick(peer, id, now);
            get := if hash.None? then None else Some((peer, hash.value));
            return;
          }
        }
      }
      FirstIsFound(connections, Useful(connections, chunks[..]), |connections|);
      return None;
    }

    // ------------------------------------------------------------------ peer.c

    method ProcessIHave(peer: int, hashes: seq<Key>, now: int) returns (get: Option<Key>)
      modifies this`connections, chunks, slots
      ensures Value() == OnIHave(old(Value()), peer, hashes, now)
      ensures get == if old(chunks) == null then None else PickGet(old(Value()), hashes)
    {
      UpdateConnections(peer, hashes);
      get := None;
      if chunks != null {
        var id := PickAChunk(hashes);
        get := FollowPick(peer, id, now);
      }
    }

    /** The part of the DATA case after the payload has been accepted. */
    method Accept(index: nat, id: nat, payload: seq<byte>, now: int) returns (ok: bool, get: Option<Key>)
      requires chunks != null && id < chunks.Length && index < slots.Length && slots[index].Busy?
      requires |chunks[id].bytes| < BT_CHUNK_SIZE
      modifies this`connections, this`has, this`file, chunks, slots
      ensures var r := Save(old(Value()), index, id, payload, now);
              ok == r.Ok? && (ok ==> Value() == r.s && get == SaveGet(old(Value()), index, id, payload))
    {
      hide Scheduler.SaveChunk, Scheduler.StartDownload, Scheduler.AbortDownload, MarkPeer, OfferedBy, Receiver.Clamp;
      var peer := slots[index].peer;
      get := None;
      ok := SaveDataPacket(id, payload);
      if !ok {
        return;
      }
      var r := SaveChunk(id);
      if r > 0 {
        var _ := AbortDownload(peer);
        var next := PickANewChunk(peer);
        get := FollowPick(peer, next, now);
      } else if chunks[id].state != Owned {
        slots[index] := slots[index].(taken := slots[index].taken + Receiver.Clamp(payload));
      }
    }

    method ProcessData(peer: int, num: nat, payload: seq<byte>, now: int)
      returns (ok: bool, ack: Option<nat>, get: Option<Key>)
      requires chunks != null ==> forall k :: 0 <= k < chunks.Length ==> |chunks[k].bytes| < BT_CHUNK_SIZE
      modifies this`connections, this`has, this`file, chunks, slots
      ensures var r := OnData(old(Value()), peer, num, payload, now);
              && ok == r.outcome.Ok? && ack == r.ack
              && (ok ==> Value() == r.outcome.s && get == DataGet(old(Value()), peer, num, payload, now))
    {
      hide Save, SaveGet;
      var index := GetDownloadIndexById(peer);
      if index == -1 {
        return true, None, None;
      }
      if chunks == null {
        return false, None, None;
      }
      var id := GetChunkId(slots[index].hash);
      if id == -1 {
        return true, None, None;
      }
      var last := TrackDataPacket(peer, num, now);
      ack := Some(last);
      ok, get := true, None;
      if num == last {
        ok, get := Accept(index, id, payload, now);
      }
    }

    method ProcessDenied(peer: int)
      modifies slots
      ensures Step(old(Value()), Denied(peer)) == Ok(Value())
    {
      var _ := AbortDownload(peer);
    }

    method DownloadPeerCrashWrapper(now: int, rto: int) returns (get: Option<(int, Key)>)
      requires forall i :: 0 <= i < slots.Length && slots[i].Busy? ==> slots[i].peer != 0
      modifies slots, chunks, this`connections
      ensures Value() == OnTick(old(Value()), now, rto) && get == TickGet(old(Value()), now, rto)
    {
      get := None;
      var found := DownloadPeerCrash(now, rto);
      if found {
        get := PickAChunkAfterCrash(now);
      }
    }

    /** `parsed` is what the chunk file holds, if it can be read; peers are asked only for a new request. */
    method ProcessGet(parsed: Option<seq<Key>>) returns (flood: bool)
      modifies this`chunks, this`file
      ensures Value() == if parsed.None? then old(Value()) else OnGet(old(Value()), parsed.value)
      ensures flood <==> old(chunks) == null && parsed.Some?
    {
      if chunks != null || parsed.None? {
        return false;
      }
      var hashes := parsed.value;
      chunks := new Chunk[|hashes|](k requires 0 <= k < |hashes| => Chunk(hashes[k], NotStarted, false, []));
      file := map[];
      assert chunks[..] == Blank(hashes);
      return true;
    }

    method EndPass()
      modifies this`chunks
      ensures Value() == Release(old(Value()))
    {
      var finished := AllChunkFinished();
      if finished {
        chunks := null;
      }
    }
  }
}
