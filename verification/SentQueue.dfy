/**
  The un-acknowledged queue of one upload (keep_track.c).

  In the C program a queue is a linked list with a head and a tail pointer. When a cumulative
  acknowledgement drains it, the last node is not freed: the tail pointer keeps it, because the
  next sequence number is read from there. `Upload` is the value such a queue stands for.
 */
module SentQueue {
  import opened Wrappers
  import opened RoundTrip

  datatype Sent = Sent(num: nat, stamp: int)

  /** `tail` is the number in the node under the tail pointer, which may be stale. */
  datatype Upload = Upload(queue: seq<Sent>, tail: Option<nat>, size: int, lastAck: nat, dupAck: nat, lastTime: int)

  function Started(now: int): Upload
  {
    Upload([], None, 0, 0, 0, now)
  }

  /** `get_tail_seq_number`: zero before the first packet. */
  function TailNumber(u: Upload): nat
  {
    if u.tail.None? then 0 else u.tail.value
  }

  function Restamped(u: Upload, stamp: int): Upload
    requires u.queue != []
  {
    u.(queue := u.queue[0 := u.queue[0].(stamp := stamp)])
  }

  function Enqueue(u: Upload, num: nat, timeout: bool, now: int): Upload
  {
    if timeout then
      if u.queue == [] then u else Restamped(u, now)
    else
      u.(queue := u.queue + [Sent(num, now)], tail := Some(num), size := u.size + 1)
  }

  datatype Timeout = Timeout(up: Upload, num: nat)

  /** The head is stamped anew when it has waited for longer than the timeout. */
  function TimedOut(u: Upload, now: int, rto: int): Timeout
  {
    if u.queue == [] || now - u.queue[0].stamp <= rto then Timeout(u, 0)
    else Timeout(Restamped(u, now), u.queue[0].num)
  }

  datatype Popped = Popped(count: nat, est: Estimator)

  /** Walks from node `i` over the longest stretch whose numbers do not exceed `ack`; the node
      that carries `ack` itself feeds the round-trip estimator. */
  function Pop(queue: seq<Sent>, i: nat, est: Estimator, ack: nat, now: int): (p: Popped)
    requires i <= |queue|
    ensures i <= p.count <= |queue|
    decreases |queue| - i
  {
    if i == |queue| || queue[i].num > ack then Popped(i, est)
    else Pop(queue, i + 1, if queue[i].num == ack then Infer(est, now - queue[i].stamp) else est, ack, now)
  }

  /** Besides going on, the third duplicate acknowledgement can follow a null head pointer, or
      meet the `exit` under "ERROR!!!!". */
  datatype Verdict = Alive(up: Upload) | NullHead | ErrorExit

  /** The second half of `receive_ack`: counting duplicates. A fast retransmission is a timeout
      brought about by hand. */
  function CountDuplicate(u: Upload, ack: nat, rto: int, now: int): Verdict
  {
    var u' := u.(lastAck := ack, lastTime := now);
    if u.lastAck != ack then Alive(u'.(dupAck := 0))
    else if u.dupAck + 1 < 3 then Alive(u'.(dupAck := u.dupAck + 1))
    else if u.queue == [] then NullHead
    else if u.queue[0].num != ack + 1 then ErrorExit
    else Alive(Restamped(u', u.queue[0].stamp - rto).(dupAck := 0))
  }

  datatype Received = Received(verdict: Verdict, est: Estimator, count: nat)

  function Acknowledge(u: Upload, est: Estimator, ack: nat, now: int): Received
  {
    var p := Pop(u.queue, 0, est, ack, now);
    var rest := u.(queue := u.queue[p.count..], size := u.size - p.count);
    Received(CountDuplicate(rest, ack, p.est.rto, now), p.est, p.count)
  }

  // ------------------------------------------------------------- what it keeps

  /** The highest number acknowledged so far: everything sent that is no longer queued. */
  function Acknowledged(u: Upload): int
  {
    TailNumber(u) - |u.queue|
  }

  /** The queue holds exactly the numbers after the last acknowledged one, up to the tail; its
      size is kept right, and the stale tail keeps the last number when the queue is empty. */
  ghost predicate Shape(u: Upload)
  {
    && u.size == |u.queue|
    && u.lastAck <= Acknowledged(u)
    && u.dupAck <= 2
    && forall i :: 0 <= i < |u.queue| ==> u.queue[i].num == Acknowledged(u) + 1 + i
  }

  lemma {:induction false} PopStops(u: Upload, i: nat, est: Estimator, ack: nat, now: int)
    requires Shape(u) && i <= |u.queue| && Acknowledged(u) + i <= Max(ack, Acknowledged(u))
    requires ack <= TailNumber(u)
    ensures Acknowledged(u) + Pop(u.queue, i, est, ack, now).count == Max(ack, Acknowledged(u))
    decreases |u.queue| - i
  {
    if i < |u.queue| && u.queue[i].num <= ack {
      PopStops(u, i + 1, if u.queue[i].num == ack then Infer(est, now - u.queue[i].stamp) else est, ack, now);
    }
  }

  /** An acknowledgement that does not exceed the tail moves the acknowledged number to the
      larger of the two and leaves the tail alone. A process that stops does so on a third
      duplicate: at a null head exactly when nothing is outstanding, and at the `exit` exactly
      when the duplicate is older than what has been acknowledged. */
  lemma AcknowledgeKeepsShape(u: Upload, est: Estimator, ack: nat, now: int)
    requires Shape(u) && ack <= TailNumber(u)
    ensures var r := Acknowledge(u, est, ack, now);
            && (r.verdict.Alive? ==>
                  && Shape(r.verdict.up)
                  && Acknowledged(r.verdict.up) == Max(ack, Acknowledged(u)) == Acknowledged(u) + r.count
                  && TailNumber(r.verdict.up) == TailNumber(u)
                  && r.verdict.up.lastAck == ack && r.verdict.up.lastTime == now
                  && r.verdict.up.dupAck == if ack != u.lastAck || u.dupAck == 2 then 0 else u.dupAck + 1)
            && (r.verdict.NullHead? <==> ack == u.lastAck && u.dupAck == 2 && u.queue == [])
            && (r.verdict.ErrorExit? <==> ack == u.lastAck && u.dupAck == 2 && u.queue != [] && ack < Acknowledged(u))
  {
    PopStops(u, 0, est, ack, now);
  }

  /** New packets carry consecutive numbers. */
  lemma EnqueueKeepsShape(u: Upload, timeout: bool, now: int)
    requires Shape(u)
    ensures var r := Enqueue(u, TailNumber(u) + 1, timeout, now);
            && Shape(r) && Acknowledged(r) == Acknowledged(u)
            && TailNumber(r) == TailNumber(u) + if timeout then 0 else 1
  {
  }

  /** Only the oldest outstanding packet is ever retransmitted. */
  lemma TimedOutKeepsShape(u: Upload, now: int, rto: int)
    requires Shape(u)
    ensures var t := TimedOut(u, now, rto);
            && Shape(t.up) && Acknowledged(t.up) == Acknowledged(u) && |t.up.queue| == |u.queue|
            && (t.num != 0 <==> u.queue != [] && now - u.queue[0].stamp > rto)
            && (t.num != 0 ==> t.num == Acknowledged(u) + 1)
  {
  }

  // ------------------------------------------------------------- its clock readings

  /** No time recorded lies ahead of the clock, so that the differences taken in C's unsigned
      arithmetic are those of the integers. */
  ghost predicate Timed(u: Upload, clock: int)
  {
    && u.lastTime <= clock
    && forall i :: 0 <= i < |u.queue| ==> u.queue[i].stamp <= clock
  }

  lemma {:induction false} PopKeepsSound(queue: seq<Sent>, i: nat, est: Estimator, ack: nat, now: int)
    requires i <= |queue| && Sound(est)
    requires forall j :: i <= j < |queue| ==> queue[j].stamp <= now
    ensures Sound(Pop(queue, i, est, ack, now).est)
    decreases |queue| - i
  {
    if i < |queue| && queue[i].num <= ack {
      hide Infer, Sound;
      var next := if queue[i].num == ack then Infer(est, now - queue[i].stamp) else est;
      InferKeepsSound(est, now - queue[i].stamp);
      PopKeepsSound(queue, i + 1, next, ack, now);
    }
  }

  /** An acknowledgement of something outstanding clears the queue up to it and gives one sample. */
  lemma {:induction false} PopIs(u: Upload, i: nat, est: Estimator, ack: nat, now: int)
    requires Shape(u) && Acknowledged(u) + i < ack <= TailNumber(u)
    ensures var k := ack - Acknowledged(u);
            Pop(u.queue, i, est, ack, now) == Popped(k, Infer(est, now - u.queue[k - 1].stamp))
    decreases |u.queue| - i
  {
    hide Infer;
    if u.queue[i].num == ack {
      var next := Infer(est, now - u.queue[i].stamp);
      assert Pop(u.queue, i + 1, next, ack, now) == Popped(i + 1, next);
    } else {
      PopIs(u, i + 1, est, ack, now);
    }
  }

  lemma AcknowledgeKeepsTimed(u: Upload, est: Estimator, ack: nat, clock: int, now: int)
    requires Sound(est) && Timed(u, clock) && clock <= now
    ensures var r := Acknowledge(u, est, ack, now);
            Sound(r.est) && (r.verdict.Alive? ==> Timed(r.verdict.up, now))
  {
    hide Pop;
    PopKeepsSound(u.queue, 0, est, ack, now);
  }

  // ------------------------------------------------------------ the linked list

  class SentPacket {
    var num: nat
    var stamp: int
    var next: SentPacket?

    constructor (num: nat, stamp: int)
      ensures this.num == num && this.stamp == stamp && next == null
    {
      this.num, this.stamp, next := num, stamp, null;
    }
  }

  class Queue {
    var head: SentPacket?
    var tail: SentPacket?
    var size: int
    var lastAck: nat
    var dupAck: nat
    var lastTime: int
    /** The nodes from head to tail, and what they hold. */
    ghost var spine: seq<SentPacket>
    ghost var contents: seq<Sent>
    /** The nodes handed to `free`; a node in this set must never be followed. */
    ghost var freed: set<SentPacket>

    ghost predicate Valid()
      reads this, spine, tail
    {
      && |contents| == |spine|
      && (forall i, j :: 0 <= i < j < |spine| ==> spine[i] != spine[j])
      && (forall i :: 0 <= i < |spine| ==> spine[i].num == contents[i].num && spine[i].stamp == contents[i].stamp)
      && (forall i :: 0 <= i < |spine| - 1 ==> spine[i].next == spine[i + 1])
      && head == (if spine == [] then null else spine[0])
      && (spine != [] ==> tail == spine[|spine| - 1])
      && (tail != null ==> tail.next == null && tail !in freed)
      && (forall i :: 0 <= i < |spine| ==> spine[i] !in freed)
    }

    ghost function Value(): Upload
      reads this, tail
    {
      Upload(contents, if tail == null then None else Some(tail.num), size, lastAck, dupAck, lastTime)
    }

    /** `start_upload`, on a slot that `abort_upload` left with both pointers null. */
    constructor (now: int)
      ensures Valid() && Value() == Started(now) && fresh(spine)
    {
      head, tail, size, lastAck, dupAck, lastTime := null, null, 0, 0, 0, now;
      spine, contents, freed := [], [], {};
    }

    method GetTailSeqNumber() returns (num: nat)
      requires Valid()
      ensures num == TailNumber(Value())
    {
      if tail == null {
        return 0;
      }
      return tail.num;
    }

    method Stamp(stamp: int)
      requires Valid() && head != null
      modifies head, this`contents
      ensures Valid() && Value() == Restamped(old(Value()), stamp)
    {
      assert head == spine[0] && head !in freed;
      head.stamp := stamp;
      contents := contents[0 := contents[0].(stamp := stamp)];
    }

    method GetTimeoutSeq(now: int, rto: int) returns (num: nat)
      requires Valid()
      modifies head, this`contents
      ensures Valid() && Timeout(Value(), num) == TimedOut(old(Value()), now, rto)
    {
      if head == null {
        return 0;
      }
      assert head == spine[0] && head !in freed;
      if now - head.stamp > rto {
        num := head.num;
        Stamp(now);
      } else {
        num := 0;
      }
    }

    method Append(num: nat, now: int)
      requires Valid()
      modifies this`head, this`tail, this`size, this`spine, this`contents, this`freed, tail
      ensures Valid()
      ensures fresh(tail) && spine == old(spine) + [tail]
      ensures Value() == Enqueue(old(Value()), num, false, now)
    {
      var node := new SentPacket(num, now);
      if head == null || tail == null {
        if head == null && tail != null {
          freed := freed + {tail};
        }
        tail := node;
        head := node;
      } else {
        assert tail !in freed;
        tail.next := node;
        tail := node;
      }
      spine := spine + [node];
      contents := contents + [Sent(num, now)];
      size := size + 1;
    }

    method WaitAck(num: nat, timeout: bool, now: int)
      requires Valid()
      modifies this`head, this`tail, this`size, this`spine, this`contents, this`freed, head, tail
      ensures Valid() && (timeout ==> spine == old(spine))
      ensures !timeout ==> fresh(tail) && spine == old(spine) + [tail]
      ensures Value() == Enqueue(old(Value()), num, timeout, now)
    {
      if timeout {
        if head != null {
          Stamp(now);
        }
      } else {
        Append(num, now);
      }
    }

    /** The loop of `receive_ack` over the acknowledged front of the list. */
    method SkipAcked(ack: nat, globals: Globals, now: int) returns (first: SentPacket?, count: nat)
      requires Valid()
      modifies this`freed, globals
      ensures Popped(count, globals.Value()) == Pop(contents, 0, old(globals.Value()), ack, now)
      ensures first == if count < |spine| then spine[count] else null
      ensures forall i :: count <= i < |spine| ==> spine[i] !in freed
      ensures tail != null ==> tail !in freed
    {
      first, count := head, 0;
      while first != null && first.num <= ack
        invariant 0 <= count <= |spine| && first == if count < |spine| then spine[count] else null
        invariant Pop(contents, 0, old(globals.Value()), ack, now) == Pop(contents, count, globals.Value(), ack, now)
        invariant forall i :: count <= i < |spine| ==> spine[i] !in freed
        invariant tail != null ==> tail !in freed
        decreases |spine| - count
      {
        assert first !in freed;
        if first.num == ack {
          globals.InferRTT(first.stamp, now);
        }
        var done := first;
        first := first.next;
        if first != null {
          freed := freed + {done};
        }
        count := count + 1;
      }
    }

    /** The same, with the stores of the new head and size that the C function makes later. */
    method ClearAcked(ack: nat, globals: Globals, now: int) returns (count: nat)
      requires Valid()
      modifies this`head, this`size, this`freed, this`spine, this`contents, globals
      ensures Valid()
      ensures Popped(count, globals.Value()) == Pop(old(contents), 0, old(globals.Value()), ack, now)
      ensures spine == old(spine)[count..] && contents == old(contents)[count..] && size == old(size) - count
    {
      var first;
      first, count := SkipAcked(ack, globals, now);
      head := first;
      spine, contents := spine[count..], contents[count..];
      size := size - count;
    }

    method NoteAck(ack: nat, rto: int, now: int) returns (alive: bool)
      requires Valid()
      modifies this`contents, this`lastAck, this`dupAck, this`lastTime, head
      ensures Valid()
      ensures var v := CountDuplicate(old(Value()), ack, rto, now);
              alive == v.Alive? && (alive ==> Value() == v.up)
    {
      if lastAck == ack {
        dupAck := dupAck + 1;
        if dupAck >= 3 {
          if head == null || head.num != ack + 1 {
            return false;
          }
          Stamp(head.stamp - rto);
          dupAck := 0;
        }
      } else {
        dupAck := 0;
      }
      lastAck := ack;
      lastTime := now;
      return true;
    }

    /** Returns the number of packets acknowledged; the process goes on when `alive`. */
    method ReceiveAck(ack: nat, globals: Globals, now: int) returns (alive: bool, count: nat)
      requires Valid()
      modifies this, spine, globals
      ensures Valid() && count <= |old(spine)| && spine == old(spine)[count..]
      ensures var r := Acknowledge(old(Value()), old(globals.Value()), ack, now);
              && globals.Value() == r.est && count == r.count && alive == r.verdict.Alive?
              && (alive ==> Value() == r.verdict.up)
    {
      count := ClearAcked(ack, globals, now);
      ghost var u := Value();
      assert u == old(Value()).(queue := contents, size := size);
      alive := NoteAck(ack, globals.rto, now);
    }

    /** `abort_upload` frees the tail node only. */
    method Abort()
      requires Valid()
      modifies this`head, this`tail, this`spine, this`contents, this`freed
      ensures Valid() && spine == [] && Value() == old(Value()).(queue := [], tail := None)
      ensures freed == old(freed) + (if old(tail) == null then {} else {old(tail)})
    {
      if tail != null {
        freed := freed + {tail};
      }
      tail := null;
      head := null;
      spine, contents := [], [];
    }
  }
}
