/**
  The receiving half of a transfer: the packet tracker of keep_track.c, and what the DATA case
  of `process_inbound_udp` does with a packet once its download slot is known.
 */
module Receiver {
  import opened Wrappers
  import opened Common
  import opened Sender

  /** The last continuous number after packet `num` arrives: out-of-order packets are dropped. */
  function Track(last: nat, num: nat): nat
  {
    if num == last + 1 then num else last
  }

  /** The same for a slot that may have no record yet: then any number is taken. */
  function TrackFrom(last: Option<nat>, num: nat): nat
  {
    if last.None? then num else Track(last.value, num)
  }

  function TrackAll(last: Option<nat>, nums: seq<nat>): Option<nat>
    decreases |nums|
  {
    if nums == [] then last else TrackAll(Some(TrackFrom(last, nums[0])), nums[1..])
  }

  /** Numbers in order are followed from the one after the record, or, without a record, from whichever
      comes first. */
  lemma {:induction false} OrderIsFollowed(last: Option<nat>, first: nat, n: nat)
    requires last.None? || first == last.value + 1
    ensures TrackAll(last, seq(n, i => first + i)) == if n == 0 then last else Some(first + n - 1)
    decreases n
  {
    if n > 0 {
      var nums := seq(n, i => first + i);
      assert nums[1..] == seq(n - 1, i => first + 1 + i);
      OrderIsFollowed(Some(first), first + 1, n - 1);
    }
  }

  /** `save_data_packet` copies at most one payload. */
  function Clamp(payload: seq<byte>): seq<byte>
  {
    if |payload| > MAX_PAYLOAD_SIZE then payload[..MAX_PAYLOAD_SIZE] else payload
  }

  /** `Overrun` stands for a copy that would leave the chunk's buffer, `Abandoned` for a download
      that `clean_download_timeout` has ended. */
  datatype Status = Running | Complete | Overrun | Abandoned

  /** `log` records the number of every packet whose payload was appended to `bytes`. */
  datatype Downstream = Downstream(status: Status, last: nat, log: seq<nat>, bytes: seq<byte>)

  const STARTED := Downstream(Running, 0, [], [])

  datatype Reaction = Reaction(d: Downstream, ack: Option<nat>)

  /** Every packet of a running download is answered with the last continuous number; the payload
      is appended when that number is the packet's own, and 524288 bytes end the download. */
  function OnData(d: Downstream, num: nat, payload: seq<byte>): Reaction
  {
    if d.status != Running then Reaction(d, None)
    else
      var last := Track(d.last, num);
      if num != last then Reaction(d, Some(last))
      else
        var bytes := d.bytes + Clamp(payload);
        var status := if |bytes| > BT_CHUNK_SIZE then Overrun
                      else if |bytes| == BT_CHUNK_SIZE then Complete else Running;
        Reaction(Downstream(status, last, d.log + [num], bytes), Some(last))
  }

  /** `clean_download_timeout`: four timeouts without DATA end a running download. */
  function GiveUp(d: Downstream, lastTime: int, rto: int, now: int): Downstream
  {
    if d.status == Running && now - lastTime > ABORT_COEFF * rto then d.(status := Abandoned) else d
  }

  // ------------------------------------------------------------- the record list

  class PacketRecord {
    var num: nat
    var length: nat
    var next: PacketRecord?

    constructor (num: nat, length: nat, next: PacketRecord?)
      ensures this.num == num && this.length == length && this.next == next
    {
      this.num, this.length, this.next := num, length, next;
    }
  }

  /** `spine` lists the records from `first` on. */
  ghost predicate Linked(first: PacketRecord?, spine: seq<PacketRecord>)
    reads spine
  {
    && first == (if spine == [] then null else spine[0])
    && (forall i, j :: 0 <= i < j < |spine| ==> spine[i] != spine[j])
    && (forall i :: 0 <= i < |spine| - 1 ==> spine[i].next == spine[i + 1])
    && (spine != [] ==> spine[|spine| - 1].next == null)
  }

  /** A record between positions `at` and `at + 1` of a list. */
  lemma InsertionIsLinked(first: PacketRecord?, spine: seq<PacketRecord>, at: nat, added: PacketRecord)
    requires at < |spine| && first == spine[0] && added !in spine
    requires forall i, j :: 0 <= i < j < |spine| ==> spine[i] != spine[j]
    requires forall i :: 0 <= i < |spine| - 1 && i != at ==> spine[i].next == spine[i + 1]
    requires at + 1 < |spine| ==> spine[|spine| - 1].next == null
    requires spine[at].next == added && added.next == if at + 1 < |spine| then spine[at + 1] else null
    ensures Linked(first, spine[..at + 1] + [added] + spine[at + 1..])
  {
    var longer := spine[..at + 1] + [added] + spine[at + 1..];
    forall i | 0 <= i < |longer|
      ensures longer[i] == if i <= at then spine[i] else if i == at + 1 then added else spine[i - 1]
    {
    }
    forall i | 0 <= i < |longer| - 1
      ensures longer[i].next == longer[i + 1]
    {
      if i > at + 1 {
        assert spine[i - 1].next == spine[i];
      }
    }
  }

  /** One entry of `last_acked_record`. Between calls the list is empty or a single record. */
  class Tracker {
    var root: PacketRecord?

    ghost predicate Valid()
      reads this, root
    {
      root != null ==> root.next == null
    }

    ghost function Last(): Option<nat>
      reads this, root
    {
      if root == null then None else Some(root.num)
    }

    constructor ()
      ensures Valid() && Last() == None
    {
      root := null;
    }

    /** `add_record`, on any list: the walk stops before the first later record whose number is
        not smaller, and the packet is added only when it directly follows the record found. */
    method AddRecord(first: PacketRecord?, ghost spine: seq<PacketRecord>, num: nat, length: nat)
      returns (saved: PacketRecord, ghost spine': seq<PacketRecord>, ghost at: nat)
      requires Linked(first, spine)
      modifies spine
      ensures Linked(saved, spine') && forall r :: r in spine ==> r.num == old(r.num)
      ensures first == null ==> fresh(saved) && saved.num == num && spine' == [saved]
      ensures first != null ==>
                && saved == first && at < |spine|
                && (forall j :: 0 < j <= at ==> spine[j].num < num)
                && (at + 1 < |spine| ==> num <= spine[at + 1].num)
                && (if spine[at].num + 1 != num then spine' == spine
                    else && |spine'| == |spine| + 1 && spine' == spine[..at + 1] + [spine'[at + 1]] + spine[at + 1..]
                         && fresh(spine'[at + 1]) && spine'[at + 1].num == num)
    {
      at := 0;
      if first == null {
        saved := new PacketRecord(num, length, null);
        spine' := [saved];
        return;
      }
      saved := first;
      var node := first;
      while node.next != null && node.next.num < num
        invariant Linked(first, spine) && at < |spine| && node == spine[at]
        invariant forall j :: 0 < j <= at ==> spine[j].num < num
        decreases |spine| - at
      {
        node := node.next;
        at := at + 1;
      }
      spine' := spine;
      if node.num + 1 == num {
        var added := new PacketRecord(num, length, node.next);
        node.next := added;
        InsertionIsLinked(first, spine, at, added);
        spine' := spine[..at + 1] + [added] + spine[at + 1..];
      }
    }

    /** `track_data_packet`: adds the packet, walks to the end of the continuous stretch, and frees
        what lies before it. */
    method TrackDataPacket(num: nat, length: nat) returns (last: nat)
      requires Valid()
      modifies this, root
      ensures Valid() && Last() == Some(last)
      ensures last == TrackFrom(old(Last()), num)
    {
      var first, spine, _ := AddRecord(root, if root == null then [] else [root], num, length);
      assert |spine| <= 2 && (|spine| == 2 ==> spine[1].num == spine[0].num + 1);
      var node := first;
      ghost var at := 0;
      while node.next != null && node.num + 1 == node.next.num
        invariant Linked(first, spine) && at < |spine| && node == spine[at]
        decreases |spine| - at
      {
        node := node.next;
        at := at + 1;
      }
      ghost var i := 0;
      while first != node && first != null
        invariant i <= at && first == spine[i]
        decreases at - i
      {
        assert first.next == spine[i + 1];
        first := first.next;
        i := i + 1;
      }
      root := first;
      return root.num;
    }

    method Abort()
      modifies this
      ensures Valid() && Last() == None
    {
      root := null;
    }
  }

  // ---------------------------------------------------- what the buffer holds

  /** The numbers 1, 2, ..., n. */
  function UpTo(n: nat): (s: seq<nat>)
    ensures |s| == n && forall i :: 0 <= i < n ==> s[i] == i + 1
  {
    if n == 0 then [] else UpTo(n - 1) + [n]
  }

  /** Some packet was appended a second time. */
  ghost predicate HasRepeat(log: seq<nat>)
  {
    exists i :: 0 < i < |log| && log[i] == log[i - 1]
  }

  /** The log starts at 1 and steps by zero or one. */
  ghost predicate Steady(log: seq<nat>)
  {
    && (log != [] ==> log[0] == 1)
    && forall i :: 0 < i < |log| ==> log[i] == log[i - 1] || log[i] == log[i - 1] + 1
  }

  function Slices(chunk: seq<byte>, log: seq<nat>): seq<byte>
    requires |chunk| == BT_CHUNK_SIZE
    requires forall i :: 0 <= i < |log| ==> 1 <= log[i] <= MAX_PACKET_PER_CHUNK
  {
    if log == [] then [] else Slices(chunk, log[..|log| - 1]) + Slice(chunk, log[|log| - 1])
  }

  /** The length of the chunk that the first `n` packets carry. */
  function PrefixLength(n: nat): nat
  {
    if MAX_PAYLOAD_SIZE * n < BT_CHUNK_SIZE then MAX_PAYLOAD_SIZE * n else BT_CHUNK_SIZE
  }

  /** What holds of a download fed with slices of `chunk`, whatever the order. A download that is
      still running has appended at most 353 payloads, all of them full; the 354th decides. */
  ghost predicate Faithful(d: Downstream, chunk: seq<byte>)
    requires |chunk| == BT_CHUNK_SIZE
  {
    && Steady(d.log)
    && d.last == (if d.log == [] then 0 else d.log[|d.log| - 1])
    && d.last <= MAX_PACKET_PER_CHUNK
    && (forall i :: 0 <= i < |d.log| ==> 1 <= d.log[i] <= MAX_PACKET_PER_CHUNK)
    && d.bytes == Slices(chunk, d.log)
    && |d.log| <= MAX_PACKET_PER_CHUNK
    && (d.status == Running || d.status == Abandoned <==> |d.log| < MAX_PACKET_PER_CHUNK)
    && (|d.log| == MAX_PACKET_PER_CHUNK ==> (d.status == Complete <==> d.last == MAX_PACKET_PER_CHUNK))
  }

  lemma {:induction false} SteadyBound(log: seq<nat>, i: nat)
    requires Steady(log) && i < |log|
    ensures 1 <= log[i] <= i + 1
    ensures log[i] == i + 1 ==> forall j :: 0 <= j <= i ==> log[j] == j + 1
  {
    if i > 0 {
      SteadyBound(log, i - 1);
    }
  }

  lemma {:induction false} NoRepeatClimbs(log: seq<nat>, i: nat)
    requires Steady(log) && !HasRepeat(log) && i < |log|
    ensures log[i] == i + 1
  {
    if i > 0 {
      NoRepeatClimbs(log, i - 1);
    }
  }

  lemma LevelClimbs(log: seq<nat>)
    requires Steady(log) && log != [] && log[|log| - 1] == |log|
    ensures !HasRepeat(log)
  {
    SteadyBound(log, |log| - 1);
  }

  /** A steady log without repeats is 1, 2, ..., n; a repeat leaves it short of its length. */
  lemma RepeatOrUpTo(log: seq<nat>)
    requires Steady(log)
    ensures log == UpTo(|log|) <==> !HasRepeat(log)
    ensures log != [] ==> (!HasRepeat(log) <==> log[|log| - 1] == |log|)
  {
    if log != [] {
      if !HasRepeat(log) {
        forall i | 0 <= i < |log|
          ensures log[i] == i + 1
        {
          NoRepeatClimbs(log, i);
        }
      } else if log[|log| - 1] == |log| {
        LevelClimbs(log);
      }
    }
  }

  lemma {:induction false} SlicesLength(chunk: seq<byte>, log: seq<nat>)
    requires |chunk| == BT_CHUNK_SIZE
    requires forall i :: 0 <= i < |log| ==> 1 <= log[i] < MAX_PACKET_PER_CHUNK
    ensures |Slices(chunk, log)| == MAX_PAYLOAD_SIZE * |log|
  {
    if log != [] {
      SlicesLength(chunk, log[..|log| - 1]);
    }
  }

  lemma {:induction false} SlicesOfUpTo(chunk: seq<byte>, n: nat)
    requires |chunk| == BT_CHUNK_SIZE && n <= MAX_PACKET_PER_CHUNK
    ensures Slices(chunk, UpTo(n)) == chunk[..PrefixLength(n)]
  {
    if n > 0 {
      SlicesOfUpTo(chunk, n - 1);
      assert UpTo(n)[..n - 1] == UpTo(n - 1);
    }
  }

  /** A download short of 354 payloads has appended full ones only. */
  lemma RunningLength(d: Downstream, chunk: seq<byte>)
    requires |chunk| == BT_CHUNK_SIZE && Faithful(d, chunk) && |d.log| < MAX_PACKET_PER_CHUNK
    ensures |d.bytes| == MAX_PAYLOAD_SIZE * |d.log| && d.last <= |d.log| < MAX_PACKET_PER_CHUNK
  {
    if d.log != [] {
      SteadyBound(d.log, |d.log| - 1);
    }
    forall i | 0 <= i < |d.log|
      ensures d.log[i] < MAX_PACKET_PER_CHUNK
    {
      SteadyBound(d.log, i);
    }
    SlicesLength(chunk, d.log);
  }

  /** Where one more payload leaves the length: below the chunk's, except for the 354th, which
      reaches it exactly when it is the short one. */
  lemma AppendLength(d: Downstream, chunk: seq<byte>, num: nat)
    requires |chunk| == BT_CHUNK_SIZE && Faithful(d, chunk) && d.status == Running
    requires 1 <= num <= MAX_PACKET_PER_CHUNK && (num == d.last || num == d.last + 1)
    ensures Clamp(Slice(chunk, num)) == Slice(chunk, num)
    ensures var n := |d.bytes + Slice(chunk, num)|;
            if |d.log| + 1 < MAX_PACKET_PER_CHUNK then n < BT_CHUNK_SIZE
            else BT_CHUNK_SIZE <= n && (n == BT_CHUNK_SIZE <==> num == MAX_PACKET_PER_CHUNK)
    ensures num < MAX_PACKET_PER_CHUNK || |d.log| + 1 == MAX_PACKET_PER_CHUNK
  {
    RunningLength(d, chunk);
    hide Faithful;
  }

  /** The next packet, or the newest one again, lengthens the log by its number and the buffer by
      its slice. */
  lemma AppendSlice(chunk: seq<byte>, log: seq<nat>, num: nat)
    requires |chunk| == BT_CHUNK_SIZE && Steady(log) && 1 <= num <= MAX_PACKET_PER_CHUNK
    requires forall i :: 0 <= i < |log| ==> 1 <= log[i] <= MAX_PACKET_PER_CHUNK
    requires if log == [] then num == 1 else num == log[|log| - 1] || num == log[|log| - 1] + 1
    ensures Steady(log + [num])
    ensures forall i :: 0 <= i < |log| + 1 ==> 1 <= (log + [num])[i] <= MAX_PACKET_PER_CHUNK
    ensures Slices(chunk, log + [num]) == Slices(chunk, log) + Slice(chunk, num)
  {
    hide Slice;
    assert (log + [num])[..|log|] == log;
  }

  lemma AppendFaithful(d: Downstream, chunk: seq<byte>, num: nat)
    requires |chunk| == BT_CHUNK_SIZE && Faithful(d, chunk) && d.status == Running
    requires 1 <= num <= MAX_PACKET_PER_CHUNK && Track(d.last, num) == num
    ensures d.last <= num
    ensures var d' := OnData(d, num, Slice(chunk, num)).d;
            Faithful(d', chunk) && d'.last == num && d'.log == d.log + [num]
  {
    hide HasRepeat, Slice, Slices, Steady, Clamp;
    AppendLength(d, chunk, num);
    AppendSlice(chunk, d.log, num);
  }

  /** Any packet that carries its own slice keeps a download faithful. */
  lemma OnDataFaithful(d: Downstream, chunk: seq<byte>, num: nat)
    requires |chunk| == BT_CHUNK_SIZE && Faithful(d, chunk) && 1 <= num <= MAX_PACKET_PER_CHUNK
    ensures var r := OnData(d, num, Slice(chunk, num));
            && Faithful(r.d, chunk)
            && d.last <= r.d.last <= Max(d.last, num)
            && d.log <= r.d.log
            && (d.status == Running ==> r.ack == Some(r.d.last))
            && (d.status != Running ==> r == Reaction(d, None))
  {
    if d.status == Running && Track(d.last, num) == num {
      hide Faithful, Slice, Clamp;
      AppendFaithful(d, chunk, num);
    }
  }

  /** Whatever the network did, a download that reached 524288 bytes holds the sender's chunk; one
      that is still running holds a prefix of it as long as nothing was appended twice; and the
      writes have left the buffer exactly when 354 payloads were appended with a repeat. */
  lemma FaithfulMeans(d: Downstream, chunk: seq<byte>)
    requires |chunk| == BT_CHUNK_SIZE && Faithful(d, chunk)
    ensures d.status == Complete ==> d.bytes == chunk && d.log == UpTo(MAX_PACKET_PER_CHUNK)
    ensures !HasRepeat(d.log) ==> d.status != Overrun && d.bytes == chunk[..PrefixLength(d.last)]
    ensures d.status == Complete <==> |d.log| == MAX_PACKET_PER_CHUNK && !HasRepeat(d.log)
    ensures d.status == Overrun <==> |d.log| == MAX_PACKET_PER_CHUNK && HasRepeat(d.log)
    ensures d.status == Running || d.status == Abandoned ==> |d.bytes| < BT_CHUNK_SIZE
  {
    RepeatOrUpTo(d.log);
    if !HasRepeat(d.log) {
      SlicesOfUpTo(chunk, |d.log|);
    }
    if |d.log| < MAX_PACKET_PER_CHUNK {
      RunningLength(d, chunk);
    }
  }

  // ----------------------------------------------------- packets with any contents

  /** The download after packets of any number and contents. */
  function OnAll(d: Downstream, packets: seq<(nat, seq<byte>)>): Downstream
    decreases |packets|
  {
    if packets == [] then d else OnAll(OnData(d, packets[0].0, packets[0].1).d, packets[1..])
  }

  ghost predicate Bounded(d: Downstream)
  {
    && |d.bytes| <= MAX_PAYLOAD_SIZE * |d.log|
    && (d.status == Complete ==> |d.bytes| == BT_CHUNK_SIZE)
    && (d.status == Overrun ==> |d.bytes| > BT_CHUNK_SIZE)
  }

  lemma {:induction false} AllKeepsBounded(d: Downstream, packets: seq<(nat, seq<byte>)>)
    requires Bounded(d)
    ensures Bounded(OnAll(d, packets)) && d.bytes <= OnAll(d, packets).bytes && d.log <= OnAll(d, packets).log
    decreases |packets|
  {
    if packets != [] {
      AllKeepsBounded(OnData(d, packets[0].0, packets[0].1).d, packets[1..]);
    }
  }

  /** No packet counts for more than one payload of 1484 bytes, however long it is: whatever packets
      come, fewer than 354 payloads appended neither complete a chunk nor overrun its buffer. */
  lemma TakesAllPackets(packets: seq<(nat, seq<byte>)>)
    ensures var d := OnAll(STARTED, packets);
            d.status == Complete || d.status == Overrun ==> |d.log| >= MAX_PACKET_PER_CHUNK
  {
    AllKeepsBounded(STARTED, packets);
  }
}
