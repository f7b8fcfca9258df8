/**
  What the clock readings of a session measure: the sample of an acknowledgement, and the silence that
  ends a download.
 */
module TransferTiming {
  import opened Wrappers
  import opened Common
  import opened RoundTrip
  import opened CongestionControl
  import opened SentQueue
  import opened Sender
  import opened Receiver
  import opened Transfer
  import opened TransferRuns

  // ------------------------------------------------------------------- the sample

  /** The stamp of the outstanding packet `num`. */
  function StampOf(u: Upload, num: nat): int
    requires Acknowledged(u) < num <= TailNumber(u)
  {
    u.queue[num - Acknowledged(u) - 1].stamp
  }

  lemma SendKeepsStamps(u: Upstream, chunk: seq<byte>, now: int, rto: int, sent: nat, atTimeout: nat, num: nat)
    requires |chunk| == BT_CHUNK_SIZE && UpstreamOk(u, sent, atTimeout) && Acknowledged(u.up) < num
    requires Acknowledged(u.up) + 1 < num || TimedOut(u.up, now, rto).num == 0
    ensures var r := Send(u, chunk, now, rto);
            && Acknowledged(r.u.up) == Acknowledged(u.up) && sent <= TailNumber(r.u.up)
            && (num <= sent ==> StampOf(r.u.up, num) == StampOf(u.up, num))
  {
    hide WindowOk, Slice;
  }

  lemma AckKeepsStamps(u: Upstream, est: Estimator, ack: nat, now: int, sent: nat, atTimeout: nat, num: nat)
    requires UpstreamOk(u, sent, atTimeout) && ack <= sent && OnAckPacket(u, est, ack, now).Continues?
    requires Max(ack, Acknowledged(u.up)) < num <= sent
    requires Max(ack, Acknowledged(u.up)) + 1 < num || !(ack == u.up.lastAck && u.up.dupAck == 2)
    ensures var up := OnAckPacket(u, est, ack, now).u.up;
            && Acknowledged(up) == Max(ack, Acknowledged(u.up)) && TailNumber(up) == sent
            && StampOf(up, num) == StampOf(u.up, num)
  {
    hide WindowOk, OnAck, Pop, Infer;
    AcknowledgeKeepsShape(u.up, est, ack, now);
  }

  /** A third duplicate makes the oldest outstanding packet look a timeout older. */
  ghost predicate Ages(s: State, step: Step)
  {
    step.Pass? && s.phase.Active? && step.inbound == Some(s.phase.u.up.lastAck) && s.phase.u.up.dupAck == 2
  }

  /** After the step packet `num` is still outstanding, and the step has neither sent it again nor made
      it look older: it is not the oldest one, or the step did that to no packet. */
  ghost predicate Waits(s: State, chunk: seq<byte>, step: Step, num: nat)
    requires |chunk| == BT_CHUNK_SIZE
  {
    var s' := Next(s, chunk, step);
    && s.phase.Active? && s'.phase.Active? && Acknowledged(s'.phase.u.up) < num
    && (Acknowledged(s'.phase.u.up) + 1 < num || (!TimesOut(s, step) && !Ages(s, step)))
  }

  ghost predicate WaitsAll(s: State, chunk: seq<byte>, steps: seq<Step>, num: nat)
    requires |chunk| == BT_CHUNK_SIZE
    decreases |steps|
  {
    steps == [] || (Waits(s, chunk, steps[0], num) && WaitsAll(Next(s, chunk, steps[0]), chunk, steps[1..], num))
  }

  lemma StepKeepsStamps(s: State, chunk: seq<byte>, step: Step, num: nat)
    requires |chunk| == BT_CHUNK_SIZE && Inv(s, chunk) && Enabled(s, step) && num <= s.sent
    requires Waits(s, chunk, step, num)
    ensures Acknowledged(s.phase.u.up) < num <= TailNumber(s.phase.u.up)
    ensures num <= Next(s, chunk, step).sent == TailNumber(Next(s, chunk, step).phase.u.up)
    ensures StampOf(Next(s, chunk, step).phase.u.up, num) == StampOf(s.phase.u.up, num)
  {
    hide Shape, WindowOk, Faithful, TimesOk, PacketOk, Send, TimedOut, OnAck, OnAckPacket, Acknowledge, Acknowledged,
      StampOf, Infer, GiveUp, OnData, TailNumber;
    if step.Pass? {
      var u := s.phase.u;
      if step.inbound.None? {
        SendKeepsUpstream(u, chunk, step.tSend, s.est.rto, s.sent, s.atTimeout);
        SendKeepsStamps(u, chunk, step.tSend, s.est.rto, s.sent, s.atTimeout, num);
      } else {
        var ack := step.inbound.value;
        var r, effect := Acknowledge(u.up, s.est, ack, step.tAck), OnAckPacket(u, s.est, ack, step.tAck);
        AckInFlight(s, chunk, ack);
        AckKeepsUpstream(u, s.est, ack, step.tAck, s.sent, s.atTimeout);
        SendKeepsUpstream(effect.u, chunk, step.tSend, r.est.rto, s.sent, s.atTimeout);
        AckKeepsStamps(u, s.est, ack, step.tAck, s.sent, s.atTimeout, num);
        SendKeepsStamps(effect.u, chunk, step.tSend, r.est.rto, s.sent, s.atTimeout, num);
      }
    }
  }

  lemma {:induction false} RunKeepsStamps(s: State, chunk: seq<byte>, steps: seq<Step>, num: nat)
    requires |chunk| == BT_CHUNK_SIZE && Inv(s, chunk) && Possible(s, chunk, steps) && WaitsAll(s, chunk, steps, num)
    requires s.phase.Active? && Acknowledged(s.phase.u.up) < num <= s.sent
    ensures var s' := Run(s, chunk, steps);
            && Inv(s', chunk) && s'.phase.Active? && Acknowledged(s'.phase.u.up) < num
            && num <= TailNumber(s'.phase.u.up) && num <= TailNumber(s.phase.u.up)
            && StampOf(s'.phase.u.up, num) == StampOf(s.phase.u.up, num)
    decreases |steps|
  {
    SentIsTail(s, chunk);
    if steps != [] {
      hide Inv, Next, Enabled, StampOf, Acknowledged, TailNumber, TimesOut, Ages;
      StepKeepsInv(s, chunk, steps[0]);
      StepKeepsStamps(s, chunk, steps[0], num);
      RunKeepsStamps(Next(s, chunk, steps[0]), chunk, steps[1..], num);
    }
  }

  lemma SentIsTail(s: State, chunk: seq<byte>)
    requires |chunk| == BT_CHUNK_SIZE && Inv(s, chunk) && s.phase.Active?
    ensures TailNumber(s.phase.u.up) == s.sent
  {
    hide Shape, WindowOk, Faithful, PacketOk, TimesOk;
  }

  /** A pass that sends a packet for the first time stamps it with the reading of that pass. */
  lemma NewPacketIsStamped(s: State, chunk: seq<byte>, step: Step)
    requires |chunk| == BT_CHUNK_SIZE && Inv(s, chunk) && Enabled(s, step) && step.Pass? && s.phase.Active?
    requires Next(s, chunk, step).phase.Active? && Next(s, chunk, step).sent == s.sent + 1
    ensures var up := Next(s, chunk, step).phase.u.up;
            Acknowledged(up) < s.sent + 1 == TailNumber(up) && StampOf(up, s.sent + 1) == step.tSend
  {
    hide Shape, WindowOk, Faithful, TimesOk, PacketOk, Send, TimedOut, OnAck, OnAckPacket, Acknowledge, Acknowledged,
      TailNumber, StampOf;
    var u := s.phase.u;
    SentIsTail(s, chunk);
    if step.inbound.None? {
      SendStamps(u, chunk, step.tSend, s.est.rto, s.sent, s.atTimeout);
    } else {
      var ack := step.inbound.value;
      var r, effect := Acknowledge(u.up, s.est, ack, step.tAck), OnAckPacket(u, s.est, ack, step.tAck);
      AckInFlight(s, chunk, ack);
      AckKeepsUpstream(u, s.est, ack, step.tAck, s.sent, s.atTimeout);
      SendStamps(effect.u, chunk, step.tSend, r.est.rto, s.sent, s.atTimeout);
    }
  }

  lemma SendStamps(u: Upstream, chunk: seq<byte>, now: int, rto: int, sent: nat, atTimeout: nat)
    requires |chunk| == BT_CHUNK_SIZE && UpstreamOk(u, sent, atTimeout)
    ensures var up := Send(u, chunk, now, rto).u.up;
            TailNumber(up) == sent + 1 ==> Acknowledged(up) < sent + 1 && StampOf(up, sent + 1) == now
  {
    hide WindowOk, Slice;
  }

  lemma SampleOf(u: Upload, est: Estimator, ack: nat, now: int)
    requires Shape(u) && Acknowledged(u) < ack <= TailNumber(u)
    ensures Acknowledge(u, est, ack, now).est == Infer(est, now - StampOf(u, ack))
  {
    hide Infer, Pop;
    PopIs(u, 0, est, ack, now);
  }

  /** The estimator measures round trips: the acknowledgement of a packet, in whatever run after its
      first transmission, gives the time that has passed since that pass, as long as the packet has
      neither been sent again nor been made to look older. */
  lemma SampleIsRoundTrip(s: State, chunk: seq<byte>, send: Step, steps: seq<Step>, hear: Step)
    requires |chunk| == BT_CHUNK_SIZE && Inv(s, chunk) && Enabled(s, send) && send.Pass? && s.phase.Active?
    requires Next(s, chunk, send).phase.Active? && Next(s, chunk, send).sent == s.sent + 1
    requires Possible(Next(s, chunk, send), chunk, steps) && WaitsAll(Next(s, chunk, send), chunk, steps, s.sent + 1)
    requires hear.Pass? && hear.inbound == Some(s.sent + 1) && Enabled(Run(Next(s, chunk, send), chunk, steps), hear)
    ensures var s1 := Run(Next(s, chunk, send), chunk, steps);
            Next(s1, chunk, hear).est == Infer(s1.est, hear.tAck - send.tSend)
  {
    hide Inv, Next, Enabled, Acknowledged, StampOf, Infer, Waits, TailNumber;
    var sending := Next(s, chunk, send);
    StepKeepsInv(s, chunk, send);
    NewPacketIsStamped(s, chunk, send);
    RunKeepsStamps(sending, chunk, steps, s.sent + 1);
    HeardSample(Run(sending, chunk, steps), chunk, hear);
  }

  lemma HeardSample(s: State, chunk: seq<byte>, hear: Step)
    requires |chunk| == BT_CHUNK_SIZE && Inv(s, chunk) && Enabled(s, hear) && hear.Pass? && hear.inbound.Some?
    requires s.phase.Active? && Acknowledged(s.phase.u.up) < hear.inbound.value <= TailNumber(s.phase.u.up)
    ensures Next(s, chunk, hear).est == Infer(s.est, hear.tAck - StampOf(s.phase.u.up, hear.inbound.value))
  {
    hide WindowOk, Faithful, TimesOk, PacketOk, Send, TimedOut, OnAck, Acknowledge, StampOf, Infer;
    SampleOf(s.phase.u.up, s.est, hear.inbound.value, hear.tAck);
  }

  // ----------------------------------------------------------- fast retransmission

  /** The third duplicate of an acknowledgement sends the oldest outstanding packet again in the same
      pass, whatever the timeout is, unless that packet was stamped at the very reading of that pass. */
  lemma FastRetransmitIff(s: State, chunk: seq<byte>, step: Step)
    requires |chunk| == BT_CHUNK_SIZE && Inv(s, chunk) && Enabled(s, step) && Ages(s, step)
    requires Next(s, chunk, step).phase.Active?
    ensures s.phase.u.up.queue != []
    ensures TimesOut(s, step) <==> step.tSend > s.phase.u.up.queue[0].stamp
  {
    hide WindowOk, Faithful, TimesOk, Send, OnAck, Infer;
    var u, ack := s.phase.u, step.inbound.value;
    AckInFlight(s, chunk, ack);
    AckKeepsUpstream(u, s.est, ack, step.tAck, s.sent, s.atTimeout);
    assert Pop(u.up.queue, 0, s.est, ack, step.tAck) == Popped(0, s.est);
    assert u.up.queue[0..] == u.up.queue;
  }

  // ------------------------------------------------- how long a start may stay silent

  /** The first packet is sent again by the first pass that comes more than 1.6 seconds after it, and the
      upload is given up by one that ends more than 6.4 seconds after the GET without an acknowledgement. */
  lemma FirstTimeout(chunk: seq<byte>, now: int, t: int)
    requires |chunk| == BT_CHUNK_SIZE && now <= t
    ensures var s := Next(Initial(now), chunk, Pass(None, now, now, now));
            var again := Pass(None, t, t, t);
            && s.net == multiset{Data(1, Slice(chunk, 1))}
            && (TimesOut(s, again) <==> t > now + 1600000)
            && (Next(s, chunk, again).phase == Closed(false) <==> t > now + 6400000)
            && (TimesOut(s, again) ==>
                  Next(s, chunk, again).net == multiset{Data(1, Slice(chunk, 1)), Data(1, Slice(chunk, 1))})
  {
    hide Slice;
  }

  /** So is a download without DATA. */
  lemma FirstSilence(chunk: seq<byte>, now: int, t: int)
    requires |chunk| == BT_CHUNK_SIZE
    ensures Next(Initial(now), chunk, Look(t)).down.status == if t > now + 6400000 then Abandoned else Running
  {
  }

  // ------------------------------------------------------------ samples from elsewhere

  /** The samples that other transfers feed to one side. */
  function SamplesOf(steps: seq<Step>, atReceiver: bool): seq<int>
  {
    if steps == [] then []
    else (match steps[0]
          case Sample(there, sample) => if there == atReceiver then [sample] else []
          case _ => []) + SamplesOf(steps[1..], atReceiver)
  }

  /** Other transfers of a process move its estimator and nothing else, so that they decide when this one
      times out. */
  lemma {:induction false} SamplesMoveEstimates(s: State, chunk: seq<byte>, steps: seq<Step>)
    requires |chunk| == BT_CHUNK_SIZE && forall i :: 0 <= i < |steps| ==> steps[i].Sample?
    ensures Run(s, chunk, steps) ==
            s.(est := InferAll(s.est, SamplesOf(steps, false)), downEst := InferAll(s.downEst, SamplesOf(steps, true)))
    decreases |steps|
  {
    if steps == [] {
    } else {
      hide Infer;
      var s' := Next(s, chunk, steps[0]);
      SamplesMoveEstimates(s', chunk, steps[1..]);
      OneSample(s.est, steps[0].sample, SamplesOf(steps[1..], false));
      OneSample(s.downEst, steps[0].sample, SamplesOf(steps[1..], true));
    }
  }

  lemma OneSample(e: Estimator, sample: int, samples: seq<int>)
    ensures InferAll(e, [sample] + samples) == InferAll(Infer(e, sample), samples)
    ensures [] + samples == samples
  {
    assert ([sample] + samples)[1..] == samples;
  }
}
