/**
  One upload: the sending half of network.c's `send_data_packets` and the ACK case of
  `process_inbound_udp` in peer.c, over the queue and the window of one slot.
 */
module Sender {
  import opened Wrappers
  import opened Common
  import opened RoundTrip
  import opened CongestionControl
  import opened SentQueue

  /** Where the payload of packet `num` starts in a chunk, and where that of the last one ends. */
  function Offset(num: nat): nat
    requires num >= 1
  {
    if num <= MAX_PACKET_PER_CHUNK then MAX_PAYLOAD_SIZE * (num - 1) else BT_CHUNK_SIZE
  }

  function Slice(chunk: seq<byte>, num: nat): seq<byte>
    requires |chunk| == BT_CHUNK_SIZE && 1 <= num <= MAX_PACKET_PER_CHUNK
  {
    chunk[Offset(num)..Offset(num + 1)]
  }

  datatype Upstream = Upstream(up: Upload, win: Window)

  datatype Packet = Data(num: nat, payload: seq<byte>) | Ack(ack: nat)

  /** The number before the one to send, if anything is to be sent. */
  datatype Choice = Choice(u: Upstream, before: Option<nat>, timeout: bool)

  /** A timed-out head goes first and shrinks the window; otherwise a new packet goes if the
      window has room. */
  function Choose(u: Upstream, now: int, rto: int): Choice
  {
    var t := TimedOut(u.up, now, rto);
    if t.num != 0 then Choice(Upstream(t.up, OnTimeout(u.win)), Some(t.num - 1), true)
    else Choice(u.(up := t.up), if t.up.size < u.win.cwnd then Some(TailNumber(t.up)) else None, false)
  }

  datatype Sending = Sending(u: Upstream, packet: Option<Packet>)

  /** One pass of the loop in `send_data_packets`. */
  function Send(u: Upstream, chunk: seq<byte>, now: int, rto: int): Sending
    requires |chunk| == BT_CHUNK_SIZE
  {
    var c := Choose(u, now, rto);
    if c.before.None? || c.before.value >= MAX_PACKET_PER_CHUNK then Sending(c.u, None)
    else
      var num := c.before.value + 1;
      Sending(c.u.(up := Enqueue(c.u.up, num, c.timeout, now)), Some(Data(num, Slice(chunk, num))))
  }

  /** What the ACK case leaves of the upload. */
  datatype AckEffect = Continues(u: Upstream) | Finished | Stops(verdict: Verdict)

  function OnAckPacket(u: Upstream, est: Estimator, ack: nat, now: int): AckEffect
  {
    var r := Acknowledge(u.up, est, ack, now);
    if !r.verdict.Alive? then Stops(r.verdict)
    else if ack == MAX_PACKET_PER_CHUNK then Finished
    else Continues(Upstream(r.verdict.up, OnAck(u.win, r.count)))
  }

  /** The queue, window and estimator that the C functions reach through one slot index. */
  class Slot {
    const queue: Queue
    const controller: Controller
    const index: nat
    const globals: Globals

    ghost predicate Valid()
      reads this, queue, queue.spine, queue.tail, controller
    {
      queue.Valid() && controller.Valid() && index < controller.cwnds.Length
    }

    ghost function Value(): Upstream
      requires Valid()
      reads this, queue, queue.spine, queue.tail, controller
      reads controller.cwnds, controller.maxCwnds, controller.ackCounts, controller.policies
    {
      Upstream(queue.Value(), controller.Slots()[index])
    }

    constructor (queue: Queue, controller: Controller, index: nat, globals: Globals)
      requires queue.Valid() && controller.Valid() && index < controller.cwnds.Length
      ensures Valid() && Value() == Upstream(queue.Value(), controller.Slots()[index])
    {
      this.queue, this.controller, this.index, this.globals := queue, controller, index, globals;
    }

    method ChooseSeq(now: int) returns (canSend: bool, before: nat, timeout: bool)
      requires Valid()
      modifies queue.head, queue`contents, controller.cwnds, controller.policies
      ensures Valid() && controller.Slots() == old(controller.Slots())[index := Value().win]
      ensures Choice(Value(), if canSend then Some(before) else None, timeout) == Choose(old(Value()), now, globals.rto)
    {
      hide Queue.Valid, Infer;
      canSend, timeout := true, false;
      before := queue.GetTimeoutSeq(now, globals.rto);
      if before == 0 {
        var cwnd := controller.GetCwndSize(index);
        if queue.size < cwnd {
          before := queue.GetTailSeqNumber();
        } else {
          canSend := false;
        }
      } else {
        controller.WindowTimeout(index);
        before := before - 1;
        timeout := true;
      }
    }

    /** The loop body of `send_data_packets`; `base` is where the chunk starts in the master file,
        of which `read_file` reads a slice. */
    method SendDataPacket(master: seq<byte>, base: nat, now: int) returns (packet: Option<Packet>)
      requires Valid() && base + BT_CHUNK_SIZE <= |master|
      modifies queue, queue.head, queue.tail, controller.cwnds, controller.policies
      ensures Valid() && controller.Slots() == old(controller.Slots())[index := Value().win]
      ensures Sending(Value(), packet) == Send(old(Value()), master[base..base + BT_CHUNK_SIZE], now, globals.rto)
    {
      hide Queue.Valid, Choose;
      var canSend, before, timeout := ChooseSeq(now);
      packet := None;
      if canSend && before < MAX_PACKET_PER_CHUNK {
        var size := if before == MAX_PACKET_PER_CHUNK - 1
                    then BT_CHUNK_SIZE - MAX_PAYLOAD_SIZE * (MAX_PACKET_PER_CHUNK - 1) else MAX_PAYLOAD_SIZE;
        var from := base + before * MAX_PAYLOAD_SIZE;
        SliceOfMaster(master, base, before);
        packet := Some(Data(before + 1, master[from..from + size]));
        queue.WaitAck(before + 1, timeout, now);
      }
    }

    /** The ACK case: `alive` is false when the process stops, `finished` when the slot is freed. */
    method ProcessAck(ack: nat, now: int) returns (alive: bool, finished: bool)
      requires Valid()
      modifies queue, queue.spine, queue.tail, globals, controller.cwnds, controller.maxCwnds, controller.ackCounts
      ensures Valid()
      ensures var effect := OnAckPacket(old(Value()), old(globals.Value()), ack, now);
              && alive == !effect.Stops?
              && finished == effect.Finished?
              && (effect.Continues? ==> Value() == effect.u)
              && (alive ==> controller.Slots() == old(controller.Slots())[index := Value().win])
              && (effect.Finished? ==> Value().up.queue == [] && Value().up.tail == None)
    {
      hide Queue.Valid, Pop, CountDuplicate;
      var count;
      alive, count := queue.ReceiveAck(ack, globals, now);
      if !alive {
        return false, false;
      }
      var _ := controller.WindowControl(index, count);
      finished := ack == MAX_PACKET_PER_CHUNK;
      if finished {
        queue.Abort();
      }
    }
  }

  lemma SliceOfMaster(master: seq<byte>, base: nat, before: nat)
    requires base + BT_CHUNK_SIZE <= |master| && before < MAX_PACKET_PER_CHUNK
    ensures var size := Offset(before + 2) - Offset(before + 1);
            && size == (if before == MAX_PACKET_PER_CHUNK - 1 then 436 else MAX_PAYLOAD_SIZE)
            && before * MAX_PAYLOAD_SIZE + size <= BT_CHUNK_SIZE
            && Slice(master[base..base + BT_CHUNK_SIZE], before + 1) ==
               master[base + before * MAX_PAYLOAD_SIZE..base + before * MAX_PAYLOAD_SIZE + size]
  {
    SliceOfSlice(master, base, BT_CHUNK_SIZE, Offset(before + 1), Offset(before + 2));
  }

  lemma SliceOfSlice(s: seq<byte>, base: nat, length: nat, lo: nat, hi: nat)
    requires base + length <= |s| && lo <= hi <= length
    ensures s[base..base + length][lo..hi] == s[base + lo..base + hi]
  {
    var part := s[base..base + length];
    forall i | 0 <= i < hi - lo
      ensures part[lo..hi][i] == s[base + lo..base + hi][i]
    {
      assert part[lo..hi][i] == part[lo + i];
    }
  }
}
