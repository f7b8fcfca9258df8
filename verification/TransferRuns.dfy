/**
  What the invariant of `Transfer` means for whole runs of a session.
 */
module TransferRuns {
  import opened Wrappers
  import opened Common
  import opened RoundTrip
  import opened CongestionControl
  import opened SentQueue
  import opened Sender
  import opened Receiver
  import opened Transfer

  lemma InitialInv(chunk: seq<byte>, now: int)
    requires |chunk| == BT_CHUNK_SIZE
    ensures Inv(Initial(now), chunk)
  {
  }

  // ------------------------------------------------------------------ safety

  /** In every run an acknowledgement in flight does not exceed what the receiver has tracked, nor
      that the sender's tail, nor that 354; so an upload closed by ACK 354 has been received. */
  lemma RunIsSafe(chunk: seq<byte>, now: int, steps: seq<Step>)
    requires |chunk| == BT_CHUNK_SIZE && Possible(Initial(now), chunk, steps)
    ensures var s := Run(Initial(now), chunk, steps);
            && (forall ack: nat :: Ack(ack) in s.net ==> ack <= s.down.last)
            && s.down.last <= s.sent <= MAX_PACKET_PER_CHUNK
            && (s.phase.Active? ==> TailNumber(s.phase.u.up) == s.sent && Acknowledged(s.phase.u.up) <= s.down.last)
            && (s.phase == Closed(true) ==> s.down.last == MAX_PACKET_PER_CHUNK)
  {
    InitialInv(chunk, now);
    RunKeepsInv(Initial(now), chunk, steps);
    var s := Run(Initial(now), chunk, steps);
    forall ack: nat | Ack(ack) in s.net
      ensures ack <= s.down.last
    {
      assert PacketOk(Ack(ack), chunk, s.sent, s.down.last);
    }
  }

  /** Whatever the network does, a finished download is the sender's chunk, byte for byte; one that
      is not finished is a prefix of it unless some payload was appended twice. */
  lemma RunReassembles(chunk: seq<byte>, now: int, steps: seq<Step>)
    requires |chunk| == BT_CHUNK_SIZE && Possible(Initial(now), chunk, steps)
    ensures var d := Run(Initial(now), chunk, steps).down;
            && Steady(d.log)
            && (d.status == Complete ==> d.bytes == chunk && d.log == UpTo(MAX_PACKET_PER_CHUNK))
            && (!HasRepeat(d.log) ==> d.status != Overrun && d.bytes == chunk[..PrefixLength(d.last)])
            && (d.status == Overrun <==> |d.log| == MAX_PACKET_PER_CHUNK && HasRepeat(d.log))
  {
    InitialInv(chunk, now);
    RunKeepsInv(Initial(now), chunk, steps);
    FaithfulMeans(Run(Initial(now), chunk, steps).down, chunk);
  }

  lemma PassLeavesDownload(s: State, chunk: seq<byte>, step: Step)
    requires |chunk| == BT_CHUNK_SIZE && step.Pass?
    ensures Next(s, chunk, step).down == s.down
  {
    hide OnAckPacket, Acknowledge, Send, TimedOut;
  }

  lemma OnDataGrowsLog(d: Downstream, num: nat, payload: seq<byte>)
    ensures d.log <= OnData(d, num, payload).d.log
  {
  }

  lemma StepGrowsLog(s: State, chunk: seq<byte>, step: Step)
    requires |chunk| == BT_CHUNK_SIZE
    ensures s.down.log <= Next(s, chunk, step).down.log
  {
    hide PassOf, OnData, Infer;
    match step
    case Pass(_, _, _, _) => PassLeavesDownload(s, chunk, step);
    case Deliver(num, payload, _) => OnDataGrowsLog(s.down, num, payload);
    case Look(_) =>
    case Sample(_, _) =>
    case Lose(_) =>
    case Duplicate(_) =>
  }

  lemma {:induction false} LogGrows(s: State, chunk: seq<byte>, steps: seq<Step>)
    requires |chunk| == BT_CHUNK_SIZE && Inv(s, chunk) && Possible(s, chunk, steps)
    ensures s.down.log <= Run(s, chunk, steps).down.log
    decreases |steps|
  {
    if steps != [] {
      hide Next, Inv, Enabled;
      StepGrowsLog(s, chunk, steps[0]);
      StepKeepsInv(s, chunk, steps[0]);
      LogGrows(Next(s, chunk, steps[0]), chunk, steps[1..]);
    }
  }

  /** Appending one payload twice is fatal: the chunk can never be completed afterwards. */
  lemma RepeatIsFatal(s: State, chunk: seq<byte>, steps: seq<Step>)
    requires |chunk| == BT_CHUNK_SIZE && Inv(s, chunk) && Possible(s, chunk, steps)
    requires HasRepeat(s.down.log)
    ensures Run(s, chunk, steps).down.status != Complete
  {
    LogGrows(s, chunk, steps);
    RunKeepsInv(s, chunk, steps);
    var i :| 0 < i < |s.down.log| && s.down.log[i] == s.down.log[i - 1];
    var log := Run(s, chunk, steps).down.log;
    assert log[i] == log[i - 1];
    FaithfulMeans(Run(s, chunk, steps).down, chunk);
  }

  lemma DoneStaysDone(s: State, chunk: seq<byte>, step: Step)
    requires |chunk| == BT_CHUNK_SIZE && s.down.status != Running
    ensures Next(s, chunk, step).down == s.down
  {
    hide PassOf, Infer;
    if step.Pass? {
      PassLeavesDownload(s, chunk, step);
    }
  }

  /** A download that has ended, in whichever way, stays as it is. */
  lemma {:induction false} EndedForGood(s: State, chunk: seq<byte>, steps: seq<Step>)
    requires |chunk| == BT_CHUNK_SIZE && s.down.status != Running
    ensures Run(s, chunk, steps).down == s.down
    decreases |steps|
  {
    if steps != [] {
      hide Next;
      DoneStaysDone(s, chunk, steps[0]);
      EndedForGood(Next(s, chunk, steps[0]), chunk, steps[1..]);
    }
  }

  // ------------------------------------------------------- the "ERROR!!!!" exit

  /** The process stops exactly when the acknowledgement that arrives is the third duplicate of one
      that is older than what has been acknowledged; the null head pointer is never met. */
  lemma ExitIffStaleDuplicate(s: State, chunk: seq<byte>, step: Step)
    requires |chunk| == BT_CHUNK_SIZE && Inv(s, chunk) && Enabled(s, step)
    requires step.Pass? && step.inbound.Some? && s.phase.Active?
    ensures var up := s.phase.u.up;
            var ack := step.inbound.value;
            && (Next(s, chunk, step).phase.Crashed? <==> ack == up.lastAck && up.dupAck == 2 && ack < Acknowledged(up))
            && Next(s, chunk, step).phase != Crashed(NullHead)
  {
    hide Acknowledge, Shape, WindowOk;
    var ack := step.inbound.value;
    AckInFlight(s, chunk, ack);
    AckKeepsUpstream(s.phase.u, s.est, ack, step.tAck, s.sent, s.atTimeout);
  }

  /** Every acknowledgement handed to the sender is at least `floor` and at least its predecessor. */
  ghost predicate InOrder(steps: seq<Step>, floor: nat)
    decreases |steps|
  {
    steps == [] ||
    (if steps[0].Pass? && steps[0].inbound.Some?
     then floor <= steps[0].inbound.value && InOrder(steps[1..], steps[0].inbound.value)
     else InOrder(steps[1..], floor))
  }

  ghost predicate Abreast(s: State, floor: nat)
  {
    match s.phase
    case Active(u) => u.up.lastAck == Acknowledged(u.up) <= floor
    case Closed(_) => true
    case Crashed(_) => false
  }

  lemma StepStaysAbreast(s: State, chunk: seq<byte>, step: Step, floor: nat)
    requires |chunk| == BT_CHUNK_SIZE && Inv(s, chunk) && Enabled(s, step) && Abreast(s, floor)
    requires step.Pass? && step.inbound.Some? ==> floor <= step.inbound.value
    ensures Abreast(Next(s, chunk, step), if step.Pass? && step.inbound.Some? then step.inbound.value else floor)
  {
    hide Acknowledge, OnAckPacket, Shape, WindowOk, Send, Faithful, TimesOk, PacketOk, TimedOut, OnData, GiveUp, Infer;
    if step.Pass? && s.phase.Active? {
      var u := s.phase.u;
      if step.inbound.None? {
        SendKeepsUpstream(u, chunk, step.tSend, s.est.rto, s.sent, s.atTimeout);
      } else {
        var ack := step.inbound.value;
        AckInFlight(s, chunk, ack);
        AckKeepsUpstream(u, s.est, ack, step.tAck, s.sent, s.atTimeout);
        var effect := OnAckPacket(u, s.est, ack, step.tAck);
        if effect.Continues? {
          var rto := Acknowledge(u.up, s.est, ack, step.tAck).est.rto;
          SendKeepsUpstream(effect.u, chunk, step.tSend, rto, s.sent, s.atTimeout);
        }
      }
    }
  }

  lemma {:induction false} OrderedRunStaysAbreast(s: State, chunk: seq<byte>, steps: seq<Step>, floor: nat)
    returns (last: nat)
    requires |chunk| == BT_CHUNK_SIZE && Inv(s, chunk) && Possible(s, chunk, steps)
    requires Abreast(s, floor) && InOrder(steps, floor)
    ensures Abreast(Run(s, chunk, steps), last)
    decreases |steps|
  {
    if steps == [] {
      last := floor;
    } else {
      hide Inv, Next, Enabled, Abreast;
      StepStaysAbreast(s, chunk, steps[0], floor);
      StepKeepsInv(s, chunk, steps[0]);
      var next := if steps[0].Pass? && steps[0].inbound.Some? then steps[0].inbound.value else floor;
      last := OrderedRunStaysAbreast(Next(s, chunk, steps[0]), chunk, steps[1..], next);
    }
  }

  /** Acknowledgements that arrive in order never bring the sending process to its exit, and the
      queue then holds exactly the numbers from the last acknowledgement to the tail. */
  lemma OrderedAcksNeverExit(chunk: seq<byte>, now: int, steps: seq<Step>)
    requires |chunk| == BT_CHUNK_SIZE && Possible(Initial(now), chunk, steps) && InOrder(steps, 0)
    ensures var s := Run(Initial(now), chunk, steps);
            && !s.phase.Crashed?
            && (s.phase.Active? ==>
                  var up := s.phase.u.up;
                  && up.lastAck + |up.queue| == TailNumber(up) && up.size == |up.queue|
                  && forall i :: 0 <= i < |up.queue| ==> up.queue[i].num == up.lastAck + 1 + i)
  {
    InitialInv(chunk, now);
    var _ := OrderedRunStaysAbreast(Initial(now), chunk, steps, 0);
    RunKeepsInv(Initial(now), chunk, steps);
  }

  // ------------------------------------------------- window, flow control, progress

  /** Window bounds and flow control of every run. */
  lemma RunKeepsWindow(chunk: seq<byte>, now: int, steps: seq<Step>)
    requires |chunk| == BT_CHUNK_SIZE && Possible(Initial(now), chunk, steps)
    requires Run(Initial(now), chunk, steps).phase.Active?
    ensures var s := Run(Initial(now), chunk, steps);
            var u := s.phase.u;
            var acked := Acknowledged(u.up);
            && acked + u.up.size == s.sent
            && 1 <= u.win.cwnd <= 1 + acked <= MAX_PACKET_PER_CHUNK
            && u.win.ackCount <= acked
            && (u.win.policy == SlowStart ==> u.win.cwnd == u.win.maxCwnd == 1 + acked && u.up.size <= u.win.cwnd)
            && u.up.size <= Max(u.win.cwnd, s.atTimeout)
  {
    InitialInv(chunk, now);
    RunKeepsInv(Initial(now), chunk, steps);
  }

  /** The readme promises that outstanding packets never outnumber the window. One pass of the
      sender breaks that promise exactly when it times out with two or more packets outstanding,
      or when it was already broken. */
  lemma OutnumberedIff(u: Upstream, chunk: seq<byte>, now: int, rto: int, sent: nat, atTimeout: nat)
    requires |chunk| == BT_CHUNK_SIZE && UpstreamOk(u, sent, atTimeout)
    ensures var u' := Send(u, chunk, now, rto).u;
            u'.up.size > u'.win.cwnd <==>
              if u.up.queue != [] && now - u.up.queue[0].stamp > rto
              then u.up.size >= 2 else u.up.size > u.win.cwnd
  {
    SendKeepsUpstream(u, chunk, now, rto, sent, atTimeout);
  }

  lemma StepKeepsMaximum(s: State, chunk: seq<byte>, step: Step)
    requires |chunk| == BT_CHUNK_SIZE
    ensures Next(s, chunk, step).phase.Active? ==> s.phase.Active?
    ensures s.phase.Active? && s.phase.u.win.policy == CongestionAvoidance && Next(s, chunk, step).phase.Active? ==>
              var w := Next(s, chunk, step).phase.u.win;
              w.policy == CongestionAvoidance && w.maxCwnd == s.phase.u.win.maxCwnd
  {
    hide Acknowledge, TimedOut;
  }

  /** The largest window is frozen once a timeout has ended slow start, which never comes back. */
  lemma {:induction false} MaximumFrozen(s: State, chunk: seq<byte>, steps: seq<Step>)
    requires |chunk| == BT_CHUNK_SIZE && Run(s, chunk, steps).phase.Active?
    ensures s.phase.Active?
    ensures s.phase.u.win.policy == CongestionAvoidance ==>
              var w := Run(s, chunk, steps).phase.u.win;
              w.policy == CongestionAvoidance && w.maxCwnd == s.phase.u.win.maxCwnd
    decreases |steps|
  {
    if steps != [] {
      hide Next;
      MaximumFrozen(Next(s, chunk, steps[0]), chunk, steps[1..]);
      StepKeepsMaximum(s, chunk, steps[0]);
    }
  }

  /** The pass finds the oldest outstanding packet timed out, after the acknowledgement it may hand in. */
  ghost predicate TimesOut(s: State, step: Step)
  {
    step.Pass? && s.phase.Active? &&
    if step.inbound.None? then TimedOut(s.phase.u.up, step.tSend, s.est.rto).num != 0
    else
      var effect := OnAckPacket(s.phase.u, s.est, step.inbound.value, step.tAck);
      effect.Continues? &&
      var rto := Acknowledge(s.phase.u.up, s.est, step.inbound.value, step.tAck).est.rto;
      TimedOut(effect.u.up, step.tSend, rto).num != 0
  }

  /** What one step does to the window is what acknowledgements of the packets that it acknowledges do,
      and a timeout after that if there is one. */
  lemma WindowOfStep(s: State, chunk: seq<byte>, step: Step) returns (counts: seq<nat>)
    requires |chunk| == BT_CHUNK_SIZE && Inv(s, chunk) && Enabled(s, step)
    requires s.phase.Active? && Next(s, chunk, step).phase.Active?
    ensures var u, u' := s.phase.u, Next(s, chunk, step).phase.u;
            && Acknowledged(u'.up) == Acknowledged(u.up) + Sum(counts)
            && u'.win == if TimesOut(s, step) then OnTimeout(OnAcks(u.win, counts)) else OnAcks(u.win, counts)
  {
    hide Inv, Next, Enabled, TimesOut, OnAck;
    counts := [];
    if step.Pass? {
      if step.inbound.None? {
        WindowOfQuietPass(s, chunk, step);
      } else {
        var count := WindowOfAckPass(s, chunk, step);
        counts := [count];
        OneCount(s.phase.u.win, count);
      }
    } else {
      WindowOfOther(s, chunk, step);
    }
  }

  lemma WindowOfOther(s: State, chunk: seq<byte>, step: Step)
    requires |chunk| == BT_CHUNK_SIZE && !step.Pass?
    ensures Next(s, chunk, step).phase == s.phase && !TimesOut(s, step)
  {
  }

  lemma WindowOfQuietPass(s: State, chunk: seq<byte>, step: Step)
    requires |chunk| == BT_CHUNK_SIZE && Inv(s, chunk) && step.Pass? && step.inbound.None?
    requires s.phase.Active? && Next(s, chunk, step).phase.Active?
    ensures var u, u' := s.phase.u, Next(s, chunk, step).phase.u;
            && Acknowledged(u'.up) == Acknowledged(u.up)
            && u'.win == if TimesOut(s, step) then OnTimeout(u.win) else u.win
  {
    hide Shape, WindowOk, Faithful, TimesOk, PacketOk, Send, TimedOut, Acknowledged;
    WindowOfSend(s.phase.u, chunk, step.tSend, s.est.rto, s.sent, s.atTimeout);
  }

  lemma WindowOfAckPass(s: State, chunk: seq<byte>, step: Step) returns (count: nat)
    requires |chunk| == BT_CHUNK_SIZE && Inv(s, chunk) && Enabled(s, step) && step.Pass? && step.inbound.Some?
    requires s.phase.Active? && Next(s, chunk, step).phase.Active?
    ensures var u, u' := s.phase.u, Next(s, chunk, step).phase.u;
            && Acknowledged(u'.up) == Acknowledged(u.up) + count
            && u'.win == if TimesOut(s, step) then OnTimeout(OnAck(u.win, count)) else OnAck(u.win, count)
  {
    hide Shape, WindowOk, Faithful, TimesOk, PacketOk, Send, TimedOut, OnAck, OnAckPacket, Acknowledge, Acknowledged;
    var u, ack := s.phase.u, step.inbound.value;
    var r, effect := Acknowledge(u.up, s.est, ack, step.tAck), OnAckPacket(u, s.est, ack, step.tAck);
    count := r.count;
    AckInFlight(s, chunk, ack);
    WindowOfAck(u, s.est, ack, step.tAck, s.sent, s.atTimeout);
    AckKeepsUpstream(u, s.est, ack, step.tAck, s.sent, s.atTimeout);
    if effect.Continues? {
      WindowOfSend(effect.u, chunk, step.tSend, r.est.rto, s.sent, s.atTimeout);
    }
  }

  lemma OneCount(w: Window, count: nat)
    ensures OnAcks(w, [count]) == OnAck(w, count) && Sum([count]) == count
  {
    assert [count][1..] == [];
  }

  lemma WindowOfAck(u: Upstream, est: Estimator, ack: nat, now: int, sent: nat, atTimeout: nat)
    requires UpstreamOk(u, sent, atTimeout) && ack <= sent
    ensures var effect, r := OnAckPacket(u, est, ack, now), Acknowledge(u.up, est, ack, now);
            effect.Continues? ==>
              effect.u.win == OnAck(u.win, r.count) && Acknowledged(effect.u.up) == Acknowledged(u.up) + r.count
  {
    hide OnAck, WindowOk, Acknowledge;
    AcknowledgeKeepsShape(u.up, est, ack, now);
  }

  lemma WindowOfSend(u: Upstream, chunk: seq<byte>, now: int, rto: int, sent: nat, atTimeout: nat)
    requires |chunk| == BT_CHUNK_SIZE && UpstreamOk(u, sent, atTimeout)
    ensures var r := Send(u, chunk, now, rto).u;
            && Acknowledged(r.up) == Acknowledged(u.up)
            && r.win == if TimedOut(u.up, now, rto).num != 0 then OnTimeout(u.win) else u.win
  {
    hide WindowOk, Slice;
  }

  /** No step of the run finds a timeout. */
  ghost predicate Calm(s: State, chunk: seq<byte>, steps: seq<Step>)
    requires |chunk| == BT_CHUNK_SIZE
    decreases |steps|
  {
    steps == [] || (!TimesOut(s, steps[0]) && Calm(Next(s, chunk, steps[0]), chunk, steps[1..]))
  }

  lemma {:induction false} WindowOfCalmRun(s: State, chunk: seq<byte>, steps: seq<Step>) returns (counts: seq<nat>)
    requires |chunk| == BT_CHUNK_SIZE && Inv(s, chunk) && Possible(s, chunk, steps) && Calm(s, chunk, steps)
    requires Run(s, chunk, steps).phase.Active?
    ensures s.phase.Active?
    ensures var u, u' := s.phase.u, Run(s, chunk, steps).phase.u;
            Acknowledged(u'.up) == Acknowledged(u.up) + Sum(counts) && u'.win == OnAcks(u.win, counts)
    decreases |steps|
  {
    counts := [];
    if steps != [] {
      hide Inv, Next, Enabled, TimesOut, OnAck;
      StepKeepsInv(s, chunk, steps[0]);
      var rest := WindowOfCalmRun(Next(s, chunk, steps[0]), chunk, steps[1..]);
      StepKeepsMaximum(s, chunk, steps[0]);
      var first := WindowOfStep(s, chunk, steps[0]);
      OnAcksOfConcat(s.phase.u.win, first, rest);
      SumOfConcat(first, rest);
      counts := first + rest;
    }
  }

  lemma {:induction false} SumOfConcat(a: seq<nat>, b: seq<nat>)
    ensures Sum(a + b) == Sum(a) + Sum(b)
    decreases |a|
  {
    if a == [] {
      assert a + b == b;
    } else {
      assert (a + b)[1..] == a[1..] + b;
      SumOfConcat(a[1..], b);
    }
  }

  /** From where linear growth ends until the next timeout, the window grows by exactly the packets
      acknowledged, in every run. */
  lemma FastGrowthOfRun(s: State, chunk: seq<byte>, steps: seq<Step>)
    requires |chunk| == BT_CHUNK_SIZE && Inv(s, chunk) && Possible(s, chunk, steps) && Calm(s, chunk, steps)
    requires Run(s, chunk, steps).phase.Active? && s.phase.Active?
    requires s.phase.u.win.policy == CongestionAvoidance && s.phase.u.win.cwnd > s.phase.u.win.maxCwnd / 2
    ensures var u, u' := s.phase.u, Run(s, chunk, steps).phase.u;
            && u'.win == u.win.(cwnd := u'.win.cwnd)
            && u'.win.cwnd - Acknowledged(u'.up) == u.win.cwnd - Acknowledged(u.up)
  {
    hide Inv, Next;
    var counts := WindowOfCalmRun(s, chunk, steps);
    FastGrowth(s.phase.u.win, counts);
  }

  /** No upload is stuck: something is outstanding, so that a timeout can fire and retransmit the
      first packet not acknowledged, or the window has room for the first packet of all. */
  lemma NeverStuck(s: State, chunk: seq<byte>, now: int, rto: int)
    requires |chunk| == BT_CHUNK_SIZE && Inv(s, chunk) && s.phase.Active?
    ensures var u := s.phase.u;
            && (u.up.queue == [] ==> s.sent == 0 && Send(u, chunk, now, rto).packet == Some(Data(1, Slice(chunk, 1))))
            && (u.up.queue != [] && now - u.up.queue[0].stamp > rto ==>
                  var num := Acknowledged(u.up) + 1;
                  Send(u, chunk, now, rto).packet == Some(Data(num, Slice(chunk, num))))
  {
    SendKeepsUpstream(s.phase.u, chunk, now, rto, s.sent, s.atTimeout);
  }

  /** What is left to send plus what is left to be acknowledged. */
  function Work(s: State): int
  {
    match s.phase
    case Active(u) => 2 * MAX_PACKET_PER_CHUNK - s.sent - Acknowledged(u.up)
    case Closed(_) => 0
    case Crashed(_) => 0
  }

  /** A step that sends a packet for the first time or acknowledges one for the first time. */
  ghost predicate Productive(s: State, chunk: seq<byte>, step: Step)
    requires |chunk| == BT_CHUNK_SIZE
  {
    var s' := Next(s, chunk, step);
    s.phase.Active? && s'.phase.Active? &&
    (s'.sent > s.sent || Acknowledged(s'.phase.u.up) > Acknowledged(s.phase.u.up))
  }

  ghost function ProductiveCount(s: State, chunk: seq<byte>, steps: seq<Step>): nat
    requires |chunk| == BT_CHUNK_SIZE
    decreases |steps|
  {
    if steps == [] then 0
    else
      (if Productive(s, chunk, steps[0]) then 1 else 0) +
      ProductiveCount(Next(s, chunk, steps[0]), chunk, steps[1..])
  }

  lemma StepDoesWork(s: State, chunk: seq<byte>, step: Step)
    requires |chunk| == BT_CHUNK_SIZE && Inv(s, chunk) && Enabled(s, step)
    ensures 0 <= Work(Next(s, chunk, step)) <= Work(s)
    ensures s.phase.Active? && Next(s, chunk, step).phase.Active? ==>
              (Productive(s, chunk, step) <==> Work(Next(s, chunk, step)) < Work(s))
  {
    hide Acknowledge, Shape, WindowOk, Send;
    StepKeepsInv(s, chunk, step);
    if step.Pass? && s.phase.Active? {
      var u := s.phase.u;
      if step.inbound.None? {
        SendKeepsUpstream(u, chunk, step.tSend, s.est.rto, s.sent, s.atTimeout);
      } else {
        var ack := step.inbound.value;
        AckInFlight(s, chunk, ack);
        AckKeepsUpstream(u, s.est, ack, step.tAck, s.sent, s.atTimeout);
        var effect := OnAckPacket(u, s.est, ack, step.tAck);
        if effect.Continues? {
          var rto := Acknowledge(u.up, s.est, ack, step.tAck).est.rto;
          SendKeepsUpstream(effect.u, chunk, step.tSend, rto, s.sent, s.atTimeout);
        }
      }
    }
  }

  /** In any run whatever at most 708 steps are productive. */
  lemma {:induction false} WorkIsBounded(s: State, chunk: seq<byte>, steps: seq<Step>)
    requires |chunk| == BT_CHUNK_SIZE && Inv(s, chunk) && Possible(s, chunk, steps)
    ensures ProductiveCount(s, chunk, steps) + Work(Run(s, chunk, steps)) <= Work(s) <= 2 * MAX_PACKET_PER_CHUNK
    decreases |steps|
  {
    if steps == [] {
    } else {
      hide Next, Enabled, PhaseOk, Faithful;
      StepDoesWork(s, chunk, steps[0]);
      StepKeepsInv(s, chunk, steps[0]);
      WorkIsBounded(Next(s, chunk, steps[0]), chunk, steps[1..]);
    }
  }

  // ------------------------------------------------------ the last acknowledgement

  lemma Prepend(s: State, chunk: seq<byte>, step: Step, steps: seq<Step>)
    requires |chunk| == BT_CHUNK_SIZE && Enabled(s, step) && Possible(Next(s, chunk, step), chunk, steps)
    ensures Possible(s, chunk, [step] + steps)
    ensures Run(s, chunk, [step] + steps) == Run(Next(s, chunk, step), chunk, steps)
  {
    hide Enabled, Next;
    assert ([step] + steps)[1..] == steps;
  }

  ghost predicate CanClose(s: State, chunk: seq<byte>)
    requires |chunk| == BT_CHUNK_SIZE
  {
    exists steps :: Possible(s, chunk, steps) && Run(s, chunk, steps).phase == Closed(true)
  }

  ghost predicate LastAckLost(s: State)
  {
    s.down.status != Running && Ack(MAX_PACKET_PER_CHUNK) !in s.net && s.phase != Closed(true)
  }

  lemma StepKeepsLastAckLost(s: State, chunk: seq<byte>, step: Step)
    requires |chunk| == BT_CHUNK_SIZE && Enabled(s, step) && LastAckLost(s)
    ensures LastAckLost(Next(s, chunk, step))
  {
    hide Acknowledge, OnAckPacket, Send, SendAndClean, Infer;
    match step
    case Pass(inbound, tAck, tSend, tClean) =>
      var s' := s.(net := if inbound.None? then s.net else s.net - multiset{Ack(inbound.value)}, clock := tClean);
      if s.phase.Active? {
        if inbound.None? {
          SendingKeepsLastAckLost(s', s.phase.u, chunk, tSend, tClean);
        } else {
          OtherAcksDoNotFinish(s.phase.u, s.est, inbound.value, tAck);
          var effect := OnAckPacket(s.phase.u, s.est, inbound.value, tAck);
          if effect.Continues? {
            var heard := s'.(est := Acknowledge(s.phase.u.up, s.est, inbound.value, tAck).est);
            SendingKeepsLastAckLost(heard, effect.u, chunk, tSend, tClean);
          }
        }
      }
    case Deliver(num, payload, now) =>
    case Look(now) =>
    case Sample(_, _) =>
    case Lose(p) =>
    case Duplicate(p) =>
  }

  lemma SendingKeepsLastAckLost(s: State, u: Upstream, chunk: seq<byte>, tSend: int, tClean: int)
    requires |chunk| == BT_CHUNK_SIZE && LastAckLost(s)
    ensures LastAckLost(SendAndClean(s, u, chunk, tSend, tClean))
  {
    hide Choose, Enqueue, TimedOut;
  }

  lemma OtherAcksDoNotFinish(u: Upstream, est: Estimator, ack: nat, now: int)
    requires ack != MAX_PACKET_PER_CHUNK
    ensures !OnAckPacket(u, est, ack, now).Finished?
  {
    hide Acknowledge;
  }

  /** A receiver that has finished never answers again: once ACK 354 has left the network unheard,
      no continuation closes the upload by it, and only giving up can. */
  lemma {:induction false} LostLastAckNeverFinishes(s: State, chunk: seq<byte>, steps: seq<Step>)
    requires |chunk| == BT_CHUNK_SIZE && Possible(s, chunk, steps) && LastAckLost(s)
    ensures Run(s, chunk, steps).phase != Closed(true)
    decreases |steps|
  {
    if steps != [] {
      hide Next, Enabled;
      StepKeepsLastAckLost(s, chunk, steps[0]);
      LostLastAckNeverFinishes(Next(s, chunk, steps[0]), chunk, steps[1..]);
    }
  }

  /** The pass that hands in ACK 354 closes the upload. */
  lemma LastAckCloses(s: State, chunk: seq<byte>)
    requires |chunk| == BT_CHUNK_SIZE && Inv(s, chunk) && s.phase.Active? && Ack(MAX_PACKET_PER_CHUNK) in s.net
    ensures var step := Pass(Some(MAX_PACKET_PER_CHUNK), s.clock, s.clock, s.clock);
            Enabled(s, step) && Next(s, chunk, step).phase == Closed(true)
  {
    hide Acknowledge, Shape, WindowOk, Faithful;
    AckInFlight(s, chunk, MAX_PACKET_PER_CHUNK);
    AckKeepsUpstream(s.phase.u, s.est, MAX_PACKET_PER_CHUNK, s.clock, s.sent, s.atTimeout);
    OnlyLastAckFinishes(s.phase.u, s.est, s.clock);
  }

  lemma OnlyLastAckFinishes(u: Upstream, est: Estimator, now: int)
    ensures !OnAckPacket(u, est, MAX_PACKET_PER_CHUNK, now).Continues?
  {
    hide Acknowledge;
  }

  /** A comment at keep_track.c:130-135 has late DATA acknowledged after the last packet; the DATA
      case returns before that. So once the receiver is done, an active upload can still be closed
      by ACK 354 exactly when that acknowledgement is in flight. */
  lemma ClosableIff(s: State, chunk: seq<byte>)
    requires |chunk| == BT_CHUNK_SIZE && Inv(s, chunk) && s.phase.Active? && s.down.status != Running
    ensures CanClose(s, chunk) <==> Ack(MAX_PACKET_PER_CHUNK) in s.net
  {
    hide Next, Enabled, Inv;
    if Ack(MAX_PACKET_PER_CHUNK) in s.net {
      LastAckCloses(s, chunk);
      var step := Pass(Some(MAX_PACKET_PER_CHUNK), s.clock, s.clock, s.clock);
      var none: seq<Step> := [];
      assert Run(Next(s, chunk, step), chunk, none) == Next(s, chunk, step);
      Prepend(s, chunk, step, none);
    } else {
      forall steps | Possible(s, chunk, steps)
        ensures Run(s, chunk, steps).phase != Closed(true)
      {
        LostLastAckNeverFinishes(s, chunk, steps);
      }
    }
  }
}
