/**
  The download side of a peer: the chunks of the current request, the download slots, the list of
  known peers and the table of owned chunks, with the transitions spread over peer.c, util.c and
  keep_track.c. This module gives the values and the transitions on them.
 */
module Scheduler {
  import opened Wrappers
  import opened Common
  import Fips180
  import Receiver

  type Key = seq<byte>

  datatype ChunkState = Owned | Receiving | NotStarted

  /** `bytes` is what has been written to the chunk's buffer; its length is
      `received_byte_number`. */
  datatype Chunk = Chunk(hash: Key, state: ChunkState, hasBuffer: bool, bytes: seq<byte>)

  /** `last` is the number in the slot's packet record, if it has one. `taken` records the payload
      bytes appended since the slot was taken; the program does not store it. */
  datatype Slot = Free | Busy(peer: int, hash: Key, last: Option<nat>, lastTime: int, taken: seq<byte>)

  datatype Connection = Connection(peer: int, working: bool, hashes: seq<Key>)

  /** `file` is the output file by chunk number. */
  datatype State = State(request: Option<seq<Chunk>>, slots: seq<Slot>, connections: seq<Connection>,
                         has: seq<Key>, file: map<nat, seq<byte>>)

  // ---------------------------------------------------------------- searching

  /** The first position at which `p` holds, or the length. */
  function Find<T>(s: seq<T>, p: T -> bool): (i: nat)
    ensures IsFirst(s, p, i)
  {
    if s == [] then 0
    else
      var i := Find(s[..|s| - 1], p);
      if i < |s| - 1 then i else if p(s[i]) then i else |s|
  }

  ghost predicate IsFirst<T>(s: seq<T>, p: T -> bool, i: nat)
  {
    i <= |s| && (i < |s| ==> p(s[i])) && forall j :: 0 <= j < i ==> !p(s[j])
  }

  function HeldBy(peer: int): Slot -> bool { (s: Slot) => s.Busy? && s.peer == peer }
  function Vacant(): Slot -> bool { (s: Slot) => s.Free? }
  function Expired(now: int, rto: int): Slot -> bool
  {
    (s: Slot) => s.Busy? && now - s.lastTime > ABORT_COEFF * rto
  }

  function Named(hash: Key): Chunk -> bool { (c: Chunk) => c.hash == hash }
  function Wanted(offer: seq<Key>): Chunk -> bool { (c: Chunk) => c.state == NotStarted && c.hash in offer }
  function Unfinished(): Chunk -> bool { (c: Chunk) => c.state != Owned }
  function At(peer: int): Connection -> bool { (c: Connection) => c.peer == peer }

  /** An idle peer that offers some chunk not started yet. */
  function Useful(connections: seq<Connection>, chunks: seq<Chunk>): Connection -> bool
  {
    (c: Connection) => !c.working && Find(chunks, Wanted(OfferedBy(connections, c.peer))) < |chunks|
  }

  /** All hashes listed for `peer`. */
  function OfferedBy(connections: seq<Connection>, peer: int): seq<Key>
  {
    if connections == [] then []
    else OfferedBy(connections[..|connections| - 1], peer) +
         (var c := connections[|connections| - 1]; if c.peer == peer then c.hashes else [])
  }

  // --------------------------------------------------------------- small steps

  function WithChunk(s: State, k: nat, c: Chunk): State
    requires s.request.Some? && k < |s.request.value|
  {
    s.(request := Some(s.request.value[k := c]))
  }

  /** `track_data_packet` works on the first slot of the peer. */
  function TrackPacket(slots: seq<Slot>, peer: int, num: nat, now: int): (slots': seq<Slot>)
    ensures |slots'| == |slots|
  {
    var i := Find(slots, HeldBy(peer));
    if i == |slots| then slots
    else slots[i := slots[i].(last := Some(Receiver.TrackFrom(slots[i].last, num)), lastTime := now)]
  }

  /** `start_download`: nothing when every slot is busy. The record of the new slot is made by
      tracking packet 0, which reaches it only if the peer holds no earlier slot. */
  function StartDownload(s: State, peer: int, hash: Key, now: int): State
  {
    var i := Find(s.slots, Vacant());
    if i == |s.slots| then s
    else s.(slots := TrackPacket(s.slots[i := Busy(peer, hash, None, now, [])], peer, 0, now))
  }

  /** `abort_download`. The chunk keeps its state. */
  function AbortDownload(s: State, peer: int): State
  {
    var i := Find(s.slots, HeldBy(peer));
    if i == |s.slots| then s else s.(slots := s.slots[i := Free])
  }

  function MarkPeer(s: State, peer: int, working: bool): State
  {
    var i := Find(s.connections, At(peer));
    if i == |s.connections| then s
    else s.(connections := s.connections[i := s.connections[i].(working := working)])
  }

  /** A new peer goes to the front; a known one has its list replaced. */
  function UpdateConnections(s: State, peer: int, hashes: seq<Key>): State
  {
    var i := Find(s.connections, At(peer));
    if i == |s.connections| then s.(connections := [Connection(peer, false, hashes)] + s.connections)
    else s.(connections := s.connections[i := s.connections[i].(hashes := hashes)])
  }

  /** Takes the first chunk not started that is on offer, marks the peer and starts downloading;
      marks the peer idle when there is none. */
  function Pick(s: State, peer: int, offer: seq<Key>, now: int): State
    requires s.request.Some?
  {
    var chunks := s.request.value;
    var k := Find(chunks, Wanted(offer));
    if k == |chunks| then MarkPeer(s, peer, false)
    else
      var s := WithChunk(s, k, chunks[k].(state := Receiving));
      StartDownload(MarkPeer(s, peer, true), peer, chunks[k].hash, now)
  }

  /** The chunk for which a pick sends a GET: the one taken, if a slot was free for it. */
  function PickGet(s: State, offer: seq<Key>): Option<Key>
    requires s.request.Some?
  {
    var k := Find(s.request.value, Wanted(offer));
    if k == |s.request.value| || Find(s.slots, Vacant()) == |s.slots| then None else Some(s.request.value[k].hash)
  }

  // ------------------------------------------------------------------- events

  /** `Fault` stands for a null pointer followed or a write past the end of a buffer. */
  datatype Outcome = Ok(s: State) | Fault

  function OnIHave(s: State, peer: int, hashes: seq<Key>, now: int): State
  {
    var s := UpdateConnections(s, peer, hashes);
    if s.request.None? then s else Pick(s, peer, hashes, now)
  }

  /** `save_chunk`, once 524288 bytes are there: verify, and store or start over. */
  function SaveChunk(s: State, k: nat): State
    requires s.request.Some? && k < |s.request.value|
    requires |s.request.value[k].bytes| == BT_CHUNK_SIZE
  {
    var c := s.request.value[k];
    var blank := Chunk(c.hash, NotStarted, false, []);
    if Fips180.Digest(c.bytes) != c.hash then WithChunk(s, k, blank)
    else WithChunk(s, k, blank.(state := Owned)).(
           file := s.file[k := c.bytes],
           has := if c.hash in s.has then s.has else s.has + [c.hash])
  }

  datatype Reply = Reply(outcome: Outcome, ack: Option<nat>)

  /** The DATA case. */
  function OnData(s: State, peer: int, num: nat, payload: seq<byte>, now: int): Reply
  {
    var i := Find(s.slots, HeldBy(peer));
    if i == |s.slots| then Reply(Ok(s), None)
    else if s.request.None? then Reply(Fault, None)
    else
      var chunks, slot := s.request.value, s.slots[i];
      var k := Find(chunks, Named(slot.hash));
      if k == |chunks| then Reply(Ok(s), None)
      else
        var last := Receiver.TrackFrom(slot.last, num);
        var tracked := s.(slots := s.slots[i := slot.(last := Some(last), lastTime := now)]);
        Reply(if num != last then Ok(tracked) else Save(tracked, i, k, payload, now), Some(last))
  }

  /** `save_data_packet`, `save_chunk` and what follows a chunk that is full. */
  function Save(s: State, i: nat, k: nat, payload: seq<byte>, now: int): Outcome
    requires s.request.Some? && k < |s.request.value| && i < |s.slots| && s.slots[i].Busy?
  {
    var c, slot := s.request.value[k], s.slots[i];
    var more := Receiver.Clamp(payload);
    if c.state == Owned then Ok(s)
    else if (c.state == NotStarted && !c.hasBuffer) || |c.bytes| + |more| > BT_CHUNK_SIZE then Fault
    else
      var s := WithChunk(s, k, c.(hasBuffer := true, bytes := c.bytes + more));
      if |c.bytes + more| < BT_CHUNK_SIZE then Ok(s.(slots := s.slots[i := slot.(taken := slot.taken + more)]))
      else
        var s := AbortDownload(SaveChunk(s, k), slot.peer);
        Ok(Pick(s, slot.peer, OfferedBy(s.connections, slot.peer), now))
  }

  /** The GET that follows a chunk that is full. */
  function SaveGet(s: State, i: nat, k: nat, payload: seq<byte>): Option<Key>
    requires s.request.Some? && k < |s.request.value| && i < |s.slots| && s.slots[i].Busy?
  {
    var c, peer := s.request.value[k], s.slots[i].peer;
    var bytes := c.bytes + Receiver.Clamp(payload);
    if c.state == Owned || (c.state == NotStarted && !c.hasBuffer) || |bytes| != BT_CHUNK_SIZE then None
    else
      var freed := AbortDownload(SaveChunk(WithChunk(s, k, c.(hasBuffer := true, bytes := bytes)), k), peer);
      if freed.request.None? then None else PickGet(freed, OfferedBy(freed.connections, peer))
  }

  function DataGet(s: State, peer: int, num: nat, payload: seq<byte>, now: int): Option<Key>
  {
    var i := Find(s.slots, HeldBy(peer));
    if i == |s.slots| || s.request.None? then None
    else
      var slot := s.slots[i];
      var k, last := Find(s.request.value, Named(slot.hash)), Receiver.TrackFrom(slot.last, num);
      if k == |s.request.value| || num != last then None
      else SaveGet(s.(slots := s.slots[i := slot.(last := Some(last), lastTime := now)]), i, k, payload)
  }

  /** `clean_download_timeout` and `download_peer_crash`: the slot is freed, the chunk put back, the
      peer forgotten. The flag tells whether the peer was found. */
  function ForgetPeer(s: State, now: int, rto: int): (State, bool)
  {
    var i := Find(s.slots, Expired(now, rto));
    if i == |s.slots| then (s, false)
    else
      var peer, hash := s.slots[i].peer, s.slots[i].hash;
      var freed := AbortDownload(s, peer);
      if peer <= 0 || s.connections == [] || s.request.None? then (freed, false)
      else
        var chunks := s.request.value;
        var k := Find(chunks, Named(hash));
        var reset := if k == |chunks| then freed else WithChunk(freed, k, Chunk(chunks[k].hash, NotStarted, false, []));
        var j := Find(s.connections, At(peer));
        if j == |s.connections| then (reset, false)
        else (reset.(connections := s.connections[..j] + s.connections[j + 1..]), true)
  }

  /** `pick_a_chunk_after_crash`: the first idle peer with something to offer takes over. */
  function TakeOver(s: State, now: int): State
    requires s.request.Some?
  {
    var j := Find(s.connections, Useful(s.connections, s.request.value));
    if j == |s.connections| then s
    else
      var peer := s.connections[j].peer;
      Pick(s, peer, OfferedBy(s.connections, peer), now)
  }

  /** The peer that takes over, and the chunk asked for. */
  function TakeOverGet(s: State): Option<(int, Key)>
    requires s.request.Some?
  {
    var j := Find(s.connections, Useful(s.connections, s.request.value));
    if j == |s.connections| then None
    else
      var peer := s.connections[j].peer;
      var get := PickGet(s, OfferedBy(s.connections, peer));
      if get.None? then None else Some((peer, get.value))
  }

  function OnTick(s: State, now: int, rto: int): State
  {
    var (forgotten, found) := ForgetPeer(s, now, rto);
    if found then TakeOver(forgotten, now) else forgotten
  }

  function TickGet(s: State, now: int, rto: int): Option<(int, Key)>
  {
    var (forgotten, found) := ForgetPeer(s, now, rto);
    if found && forgotten.request.Some? then TakeOverGet(forgotten) else None
  }

  /** The end of a pass of the main loop: a finished request is freed. */
  function Release(s: State): State
  {
    if s.request.Some? && Find(s.request.value, Unfinished()) == |s.request.value| then s.(request := None) else s
  }

  function Blank(hashes: seq<Key>): (chunks: seq<Chunk>)
    ensures |chunks| == |hashes|
    ensures forall k :: 0 <= k < |hashes| ==> chunks[k] == Chunk(hashes[k], NotStarted, false, [])
  {
    seq(|hashes|, k requires 0 <= k < |hashes| => Chunk(hashes[k], NotStarted, false, []))
  }

  /** `process_get`: ignored while a request is under way. */
  function OnGet(s: State, hashes: seq<Key>): State
  {
    if s.request.Some? then s else s.(request := Some(Blank(hashes)), file := map[])
  }

  datatype Event =
    | UserGet(hashes: seq<Key>)
    | IHave(peer: int, hashes: seq<Key>, now: int)
    | Data(peer: int, num: nat, payload: seq<byte>, now: int)
    | Denied(peer: int)
    | Tick(now: int, rto: int)
    | EndOfPass

  function Step(s: State, e: Event): Outcome
  {
    match e
    case UserGet(hashes) => Ok(OnGet(s, hashes))
    case IHave(peer, hashes, now) => Ok(OnIHave(s, peer, hashes, now))
    case Data(peer, num, payload, now) => OnData(s, peer, num, payload, now).outcome
    case Denied(peer) => Ok(AbortDownload(s, peer))
    case Tick(now, rto) => Ok(OnTick(s, now, rto))
    case EndOfPass => Ok(Release(s))
  }

  /** What the program takes for granted: a request names no hash twice, peers have positive
      numbers, packets are numbered from one, and a peer that is sending a chunk does not answer a
      second WHOHAS meanwhile. */
  ghost predicate Expected(s: State, e: Event)
  {
    match e
    case UserGet(hashes) => forall i, j :: 0 <= i < j < |hashes| ==> hashes[i] != hashes[j]
    case IHave(peer, hashes, now) => peer > 0 && Find(s.slots, HeldBy(peer)) == |s.slots|
    case Data(peer, num, payload, now) => peer > 0 && num >= 1
    case Denied(peer) => peer > 0
    case Tick(_, _) => true
    case EndOfPass => true
  }
}
