/**
  From one peer's master file to the other peer's output file: a transfer that completes, heard by a
  download slot of the scheduler.
 */
module EndToEnd {
  import opened Wrappers
  import opened Common
  import opened Sender
  import opened Receiver
  import Transfer
  import TransferRuns
  import Scheduler
  import SchedulerInvariant
  import SchedulerRuns
  import Fips180

  /** The DATA of a run that reaches the receiver while its download is running, as events at the
      scheduler. */
  function Heard(s: Transfer.State, chunk: seq<byte>, steps: seq<Transfer.Step>, peer: int): seq<Scheduler.Event>
    requires |chunk| == BT_CHUNK_SIZE
    decreases |steps|
  {
    if steps == [] || s.down.status != Running then []
    else
      var rest := Heard(Transfer.Next(s, chunk, steps[0]), chunk, steps[1..], peer);
      match steps[0]
      case Deliver(num, payload, now) => [Scheduler.Data(peer, num, payload, now)] + rest
      case _ => rest
  }

  /** Slot `i` is as far with `hash` from `peer` as the running download `d`. */
  ghost predicate Mirrors(s: Scheduler.State, i: nat, peer: int, hash: seq<byte>, d: Downstream)
  {
    && SchedulerInvariant.Inv(s) && i < |s.slots| && s.slots[i].Busy?
    && s.slots[i].peer == peer && s.slots[i].hash == hash
    && s.slots[i].last == Some(d.last) && s.slots[i].taken == d.bytes
    && d.status == Running
  }

  /** The chunk with that hash is owned, and the output file holds `chunk` in its place. */
  ghost predicate OwnedAs(s: Scheduler.State, k: nat, hash: seq<byte>, chunk: seq<byte>)
  {
    && k < |SchedulerInvariant.Chunks(s)|
    && SchedulerInvariant.Chunks(s)[k].hash == hash && SchedulerInvariant.Chunks(s)[k].state == Scheduler.Owned
    && k in s.file && s.file[k] == chunk
  }

  /** One packet, at the receiver of the transfer and at the slot. */
  lemma BothTake(d: Downstream, num: nat, payload: seq<byte>, now: int, s: Scheduler.State, i: nat)
    returns (s': Scheduler.State)
    requires i < |s.slots| && s.slots[i].Busy? && Mirrors(s, i, s.slots[i].peer, s.slots[i].hash, d)
    requires num >= 1 && OnData(d, num, payload).d.status != Overrun
    ensures var e, d' := Scheduler.Data(s.slots[i].peer, num, payload, now), OnData(d, num, payload).d;
            && Scheduler.Expected(s, e) && Scheduler.Step(s, e) == Scheduler.Ok(s')
            && (d'.status == Running ==> Mirrors(s', i, s.slots[i].peer, s.slots[i].hash, d'))
            && (d'.status == Complete && Fips180.Digest(d'.bytes) == s.slots[i].hash ==>
                  exists k :: OwnedAs(s', k, s.slots[i].hash, d'.bytes))
  {
    hide SchedulerInvariant.Inv, Scheduler.OnData, Fips180.Digest, Clamp;
    var slot := s.slots[i];
    SchedulerRuns.SlotIsReceiver(s, i, num, payload, now, d.log);
    assert SchedulerRuns.AsDownload(slot, d.log) == d;
    SchedulerInvariant.SlotHasConnection(s, i);
    SchedulerInvariant.DataKeepsInv(s, slot.peer, num, payload, now);
    s' := Scheduler.OnData(s, slot.peer, num, payload, now).outcome.s;
    var d' := OnData(d, num, payload).d;
    if d'.status == Complete && Fips180.Digest(d'.bytes) == slot.hash {
      var k := Scheduler.Find(SchedulerInvariant.Chunks(s), Scheduler.Named(slot.hash));
      assert OwnedAs(s', k, slot.hash, d'.bytes);
    }
  }

  /** `events` are those of `heard` in order, with events between them that are neither about slot
      `i` nor about its peer, up to the last one heard. */
  ghost predicate Interleaves(s: Scheduler.State, i: nat, events: seq<Scheduler.Event>, heard: seq<Scheduler.Event>)
    decreases |events|
  {
    if heard == [] then events == []
    else
      && events != []
      && ((events[0] == heard[0] &&
           (Scheduler.Step(s, events[0]).Ok? ==>
              Interleaves(Scheduler.Step(s, events[0]).s, i, events[1..], heard[1..])))
          || (&& i < |s.slots| && s.slots[i].Busy? && SchedulerRuns.Elsewhere(s, events[0], i)
              && Scheduler.Expected(s, events[0]) && Scheduler.Step(s, events[0]).Ok?
              && Interleaves(Scheduler.Step(s, events[0]).s, i, events[1..], heard)))
  }

  /** What is heard, with nothing in between. */
  lemma {:induction false} NothingBetween(s: Scheduler.State, i: nat, heard: seq<Scheduler.Event>)
    ensures Interleaves(s, i, heard, heard)
    decreases |heard|
  {
    if heard != [] {
      hide Scheduler.Step, Scheduler.Expected, SchedulerRuns.Elsewhere;
      if Scheduler.Step(s, heard[0]).Ok? {
        NothingBetween(Scheduler.Step(s, heard[0]).s, i, heard[1..]);
      }
    }
  }

  /** A completed transfer of a chunk makes the chunk owned at a scheduler whose slot asked for its
      SHA-1: the DATA that the receiver of the transfer hears, heard by the slot among whatever else
      happens there, is accepted without fault, and in the end the output file holds the sender's
      bytes. */
  lemma {:induction false} HeardIsOwned(t: Transfer.State, chunk: seq<byte>, steps: seq<Transfer.Step>,
        peer: int, s: Scheduler.State, i: nat, events: seq<Scheduler.Event>)
    requires |chunk| == BT_CHUNK_SIZE && Transfer.Inv(t, chunk) && Transfer.Possible(t, chunk, steps)
    requires Transfer.Run(t, chunk, steps).down.status == Complete
    requires Mirrors(s, i, peer, Fips180.Digest(chunk), t.down)
    requires Interleaves(s, i, events, Heard(t, chunk, steps, peer))
    ensures && SchedulerInvariant.Possible(s, events)
            && exists k :: OwnedAs(SchedulerInvariant.Run(s, events), k, Fips180.Digest(chunk), chunk)
    decreases |steps|, |events|
  {
    hide Transfer.Inv, Transfer.Enabled, Transfer.Next, Fips180.Digest, OwnedAs, Scheduler.Step, Scheduler.Expected,
      Mirrors, SchedulerRuns.Elsewhere;
    MirrorsRunning(s, i, peer, Fips180.Digest(chunk), t.down);
    var step := steps[0];
    var t' := Transfer.Next(t, chunk, step);
    Transfer.StepKeepsInv(t, chunk, step);
    if t'.down.status != Running {
      TransferRuns.EndedForGood(t', chunk, steps[1..]);
    }
    if !step.Deliver? {
      OnlyDeliveryTakes(t, chunk, step);
      HeardIsOwned(t', chunk, steps[1..], peer, s, i, events);
    } else {
      HeardOnDelivery(t, chunk, steps, peer);
      OwnPacketIsHeard(s, i, events, Heard(t, chunk, steps, peer));
      if events[0] == Heard(t, chunk, steps, peer)[0] {
        var s' := TakesHeard(t, chunk, step, peer, s, i);
        if t'.down.status == Running {
          HeardIsOwned(t', chunk, steps[1..], peer, s', i, events[1..]);
        }
      } else {
        OthersKeepMirror(s, i, peer, t.down, events[0], chunk);
        HeardIsOwned(t, chunk, steps, peer, Scheduler.Step(s, events[0]).s, i, events[1..]);
      }
      PrependEvent(s, events);
    }
  }

  lemma HeardOnDelivery(t: Transfer.State, chunk: seq<byte>, steps: seq<Transfer.Step>, peer: int)
    requires |chunk| == BT_CHUNK_SIZE && t.down.status == Running && steps != [] && steps[0].Deliver?
    ensures var heard, step := Heard(t, chunk, steps, peer), steps[0];
            && heard != [] && heard[0] == Scheduler.Data(peer, step.num, step.payload, step.now)
            && heard[1..] == Heard(Transfer.Next(t, chunk, step), chunk, steps[1..], peer)
  {
    hide Transfer.Next;
  }

  lemma OwnPacketIsHeard(s: Scheduler.State, i: nat, events: seq<Scheduler.Event>, heard: seq<Scheduler.Event>)
    requires Interleaves(s, i, events, heard) && heard != [] && heard[0].Data?
    requires i < |s.slots| && s.slots[i].Busy? && s.slots[i].peer == heard[0].peer
    ensures events != [] && (events[0] != heard[0] ==> SchedulerRuns.Elsewhere(s, events[0], i))
    ensures events[0] == heard[0] && Scheduler.Step(s, events[0]).Ok? ==>
              Interleaves(Scheduler.Step(s, events[0]).s, i, events[1..], heard[1..])
  {
    hide Scheduler.Step, Scheduler.Expected;
  }

  /** The slot takes the next packet heard. */
  lemma TakesHeard(t: Transfer.State, chunk: seq<byte>, step: Transfer.Step, peer: int, s: Scheduler.State, i: nat)
    returns (s': Scheduler.State)
    requires |chunk| == BT_CHUNK_SIZE && Transfer.Inv(t, chunk) && Transfer.Enabled(t, step) && step.Deliver?
    requires Mirrors(s, i, peer, Fips180.Digest(chunk), t.down)
    requires Transfer.Next(t, chunk, step).down.status != Overrun
    ensures var e, d := Scheduler.Data(peer, step.num, step.payload, step.now), Transfer.Next(t, chunk, step).down;
            && Scheduler.Expected(s, e) && Scheduler.Step(s, e) == Scheduler.Ok(s')
            && (d.status == Running ==> Mirrors(s', i, peer, Fips180.Digest(chunk), d))
            && (d.status == Complete ==> exists k :: OwnedAs(s', k, Fips180.Digest(chunk), chunk))
  {
    hide Transfer.Inv, Transfer.Enabled, Transfer.Next, Fips180.Digest, OwnedAs, Scheduler.Step, Scheduler.Expected,
      Mirrors, OnData;
    MirrorsRunning(s, i, peer, Fips180.Digest(chunk), t.down);
    DeliveredPacket(t, chunk, step);
    Transfer.StepKeepsInv(t, chunk, step);
    s' := BothTake(t.down, step.num, step.payload, step.now, s, i);
    if Transfer.Next(t, chunk, step).down.status == Complete {
      CompleteIsChunk(Transfer.Next(t, chunk, step), chunk);
    }
  }

  lemma OthersKeepMirror(s: Scheduler.State, i: nat, peer: int, d: Downstream, e: Scheduler.Event, chunk: seq<byte>)
    requires |chunk| == BT_CHUNK_SIZE && Mirrors(s, i, peer, Fips180.Digest(chunk), d)
    requires SchedulerRuns.Elsewhere(s, e, i) && Scheduler.Expected(s, e) && Scheduler.Step(s, e).Ok?
    ensures Mirrors(Scheduler.Step(s, e).s, i, peer, Fips180.Digest(chunk), d)
  {
    hide SchedulerInvariant.Inv, Scheduler.Step, Scheduler.Expected, SchedulerRuns.Elsewhere, Fips180.Digest;
    SchedulerInvariant.StepKeepsInv(s, e);
    SchedulerRuns.OthersKeepSlot(s, e, i);
  }

  lemma DeliveredPacket(t: Transfer.State, chunk: seq<byte>, step: Transfer.Step)
    requires |chunk| == BT_CHUNK_SIZE && Transfer.Inv(t, chunk) && Transfer.Enabled(t, step) && step.Deliver?
    ensures step.num >= 1 && Transfer.Next(t, chunk, step).down == OnData(t.down, step.num, step.payload).d
  {
    assert Transfer.PacketOk(Data(step.num, step.payload), chunk, t.sent, t.down.last);
  }

  lemma CompleteIsChunk(t: Transfer.State, chunk: seq<byte>)
    requires |chunk| == BT_CHUNK_SIZE && Transfer.Inv(t, chunk) && t.down.status == Complete
    ensures t.down.bytes == chunk
  {
    FaithfulMeans(t.down, chunk);
  }

  lemma OnlyDeliveryTakes(t: Transfer.State, chunk: seq<byte>, step: Transfer.Step)
    requires |chunk| == BT_CHUNK_SIZE && !step.Deliver? && t.down.status == Running
    ensures var d := Transfer.Next(t, chunk, step).down; d == t.down || d.status == Abandoned
  {
    hide Send;
  }

  lemma PrependEvent(s: Scheduler.State, events: seq<Scheduler.Event>)
    requires events != [] && Scheduler.Expected(s, events[0]) && Scheduler.Step(s, events[0]).Ok?
    requires SchedulerInvariant.Possible(Scheduler.Step(s, events[0]).s, events[1..])
    ensures SchedulerInvariant.Possible(s, events)
    ensures SchedulerInvariant.Run(s, events) == SchedulerInvariant.Run(Scheduler.Step(s, events[0]).s, events[1..])
  {
    hide Scheduler.Expected, Scheduler.Step;
  }

  lemma MirrorsRunning(s: Scheduler.State, i: nat, peer: int, hash: seq<byte>, d: Downstream)
    requires Mirrors(s, i, peer, hash, d)
    ensures d.status == Running && i < |s.slots| && s.slots[i].Busy?
    ensures s.slots[i].peer == peer && s.slots[i].hash == hash
  {
  }

  /** The same from the GET on: any slot just started on the SHA-1 of the sender's chunk, any run of
      the transfer that completes, and anything else that happens at the scheduler in between. */
  lemma CompletedTransferIsOwned(chunk: seq<byte>, now: int, steps: seq<Transfer.Step>, s: Scheduler.State, i: nat,
        events: seq<Scheduler.Event>)
    requires |chunk| == BT_CHUNK_SIZE && Transfer.Possible(Transfer.Initial(now), chunk, steps)
    requires Transfer.Run(Transfer.Initial(now), chunk, steps).down.status == Complete
    requires SchedulerInvariant.Inv(s) && i < |s.slots| && s.slots[i].Busy?
    requires s.slots[i].hash == Fips180.Digest(chunk) && s.slots[i].last == Some(0)
    requires Interleaves(s, i, events, Heard(Transfer.Initial(now), chunk, steps, s.slots[i].peer))
    ensures && SchedulerInvariant.Possible(s, events)
            && exists k :: OwnedAs(SchedulerInvariant.Run(s, events), k, Fips180.Digest(chunk), chunk)
  {
    hide SchedulerInvariant.Inv, Fips180.Digest;
    TransferRuns.InitialInv(chunk, now);
    var k := SchedulerInvariant.SlotAndChunk(s, i);
    HeardIsOwned(Transfer.Initial(now), chunk, steps, s.slots[i].peer, s, i, events);
  }
}
