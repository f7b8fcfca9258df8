/**
  One transfer session as a step system: an upload slot at one peer, a download slot at another,
  and between them a network that loses, delays, reorders and duplicates packets.

  A step is one pass of the sender's main loop, the arrival of a DATA packet at the receiver, the
  receiver's look for a dead peer, or a move of the network. The round-trip estimator is shared by
  all uploads of a process: those outside this session come in as `Sample` steps. One clock serves
  both peers, since each of them only subtracts its own readings; the readings of a step are given
  with it, and a pass of either loop may come late.
 */
module Transfer {
  import opened Wrappers
  import opened Common
  import opened RoundTrip
  import opened CongestionControl
  import opened SentQueue
  import opened Sender
  import opened Receiver

  datatype Phase =
    | Active(u: Upstream)
    | Closed(finished: bool)      // finished by ACK 354, or given up by clean_upload_timeout
    | Crashed(verdict: Verdict)

  /** The sender's upload and estimator, the receiver's download with the time of its last DATA and
      its estimator, and what is in flight. `sent` is the highest number ever sent and `atTimeout`
      the number of packets outstanding at the latest timeout; the program stores neither. */
  datatype State = State(
    phase: Phase, est: Estimator, sent: nat, atTimeout: nat,
    down: Downstream, downEst: Estimator, downTime: int,
    clock: int, net: multiset<Packet>)

  /** Right after the GET: `start_upload` and `init_cwnd` here, `start_download` there. */
  function Initial(now: int): State
  {
    State(Active(Upstream(Started(now), FRESH)), INITIAL, 0, 0, STARTED, INITIAL, now, now, multiset{})
  }

  datatype Step =
    | Pass(inbound: Option<nat>, tAck: int, tSend: int, tClean: int)
    | Deliver(num: nat, payload: seq<byte>, now: int)
    | Look(now: int)
    | Sample(atReceiver: bool, sample: nat)
    | Lose(p: Packet)
    | Duplicate(p: Packet)

  ghost predicate Enabled(s: State, step: Step)
  {
    match step
    case Pass(inbound, tAck, tSend, tClean) =>
      (inbound.Some? ==> Ack(inbound.value) in s.net) && s.clock <= tAck <= tSend <= tClean
    case Deliver(num, payload, now) => Data(num, payload) in s.net && s.clock <= now
    case Look(now) => s.clock <= now
    case Sample(_, _) => true
    case Lose(p) => p in s.net
    case Duplicate(p) => p in s.net
  }

  function AsBag(p: Option<Packet>): multiset<Packet>
  {
    if p.None? then multiset{} else multiset{p.value}
  }

  /** The rest of the pass, after the inbound packet: send, then look for a dead peer. */
  function SendAndClean(s: State, u: Upstream, chunk: seq<byte>, tSend: int, tClean: int): State
    requires |chunk| == BT_CHUNK_SIZE
  {
    var sending := Send(u, chunk, tSend, s.est.rto);
    s.(phase := if tClean - u.up.lastTime > ABORT_COEFF * s.est.rto then Closed(false) else Active(sending.u),
       sent := TailNumber(sending.u.up),
       atTimeout := if TimedOut(u.up, tSend, s.est.rto).num != 0 then |u.up.queue| else s.atTimeout,
       clock := tClean,
       net := s.net + AsBag(sending.packet))
  }

  function PassOf(s: State, chunk: seq<byte>, inbound: Option<nat>, tAck: int, tSend: int, tClean: int): State
    requires |chunk| == BT_CHUNK_SIZE
  {
    var s' := s.(net := if inbound.None? then s.net else s.net - multiset{Ack(inbound.value)}, clock := tClean);
    if !s.phase.Active? then s'
    else if inbound.None? then SendAndClean(s', s.phase.u, chunk, tSend, tClean)
    else
      var s'' := s'.(est := Acknowledge(s.phase.u.up, s.est, inbound.value, tAck).est);
      match OnAckPacket(s.phase.u, s.est, inbound.value, tAck)
      case Stops(verdict) => s''.(phase := Crashed(verdict))
      case Finished => s''.(phase := Closed(true))
      case Continues(u) => SendAndClean(s'', u, chunk, tSend, tClean)
  }

  function DeliverOf(s: State, num: nat, payload: seq<byte>, now: int): State
  {
    var r := OnData(s.down, num, payload);
    s.(down := r.d,
       downTime := if s.down.status == Running then now else s.downTime,
       clock := now,
       net := s.net - multiset{Data(num, payload)} + AsBag(if r.ack.None? then None else Some(Ack(r.ack.value))))
  }

  function Next(s: State, chunk: seq<byte>, step: Step): State
    requires |chunk| == BT_CHUNK_SIZE
  {
    match step
    case Pass(inbound, tAck, tSend, tClean) => PassOf(s, chunk, inbound, tAck, tSend, tClean)
    case Deliver(num, payload, now) => DeliverOf(s, num, payload, now)
    case Look(now) => s.(down := GiveUp(s.down, s.downTime, s.downEst.rto, now), clock := now)
    case Sample(atReceiver, sample) =>
      if atReceiver then s.(downEst := Infer(s.downEst, sample)) else s.(est := Infer(s.est, sample))
    case Lose(p) => s.(net := s.net - multiset{p})
    case Duplicate(p) => s.(net := s.net + multiset{p})
  }

  /** `steps` can be taken one after the other from `s`. */
  ghost predicate Possible(s: State, chunk: seq<byte>, steps: seq<Step>)
    requires |chunk| == BT_CHUNK_SIZE
    decreases |steps|
  {
    steps == [] || (Enabled(s, steps[0]) && Possible(Next(s, chunk, steps[0]), chunk, steps[1..]))
  }

  function Run(s: State, chunk: seq<byte>, steps: seq<Step>): State
    requires |chunk| == BT_CHUNK_SIZE
    decreases |steps|
  {
    if steps == [] then s else Run(Next(s, chunk, steps[0]), chunk, steps[1..])
  }

  // -------------------------------------------------------------- the invariant

  /** Window rules combined with queue conservation. In slow start the window is one more than
      what has been acknowledged; in every phase the counter and the window together are not. */
  ghost predicate WindowOk(w: Window, acked: int, outstanding: nat, atTimeout: nat)
  {
    && 1 <= w.cwnd
    && w.cwnd + w.ackCount <= 1 + acked
    && 1 <= w.maxCwnd <= 1 + acked
    && (w.policy == SlowStart ==> w.cwnd == w.maxCwnd == 1 + acked && w.ackCount == 0 && atTimeout == 0)
    && (outstanding <= w.cwnd || outstanding <= atTimeout)
  }

  ghost predicate UpstreamOk(u: Upstream, sent: nat, atTimeout: nat)
  {
    && Shape(u.up)
    && TailNumber(u.up) == sent <= MAX_PACKET_PER_CHUNK
    && 0 <= Acknowledged(u.up) < MAX_PACKET_PER_CHUNK
    && WindowOk(u.win, Acknowledged(u.up), |u.up.queue|, atTimeout)
  }

  ghost predicate PhaseOk(phase: Phase, sent: nat, atTimeout: nat, last: nat)
  {
    match phase
    case Active(u) =>
      && UpstreamOk(u, sent, atTimeout)
      && Acknowledged(u.up) <= last
      && (u.up.queue == [] ==> sent == 0)
    case Closed(finished) => finished ==> last == MAX_PACKET_PER_CHUNK
    case Crashed(verdict) => verdict == ErrorExit
  }

  ghost predicate PacketOk(p: Packet, chunk: seq<byte>, sent: nat, last: nat)
    requires |chunk| == BT_CHUNK_SIZE
  {
    match p
    case Data(num, payload) => 1 <= num <= sent && num <= MAX_PACKET_PER_CHUNK && payload == Slice(chunk, num)
    case Ack(ack) => ack <= last && 1 <= sent
  }

  /** No estimate is negative and no time recorded lies ahead of the clock. */
  ghost predicate TimesOk(s: State)
  {
    && Sound(s.est) && Sound(s.downEst)
    && s.downTime <= s.clock
    && (s.phase.Active? ==> Timed(s.phase.u.up, s.clock))
  }

  ghost predicate Inv(s: State, chunk: seq<byte>)
    requires |chunk| == BT_CHUNK_SIZE
  {
    && s.down.last <= s.sent <= MAX_PACKET_PER_CHUNK
    && Faithful(s.down, chunk)
    && PhaseOk(s.phase, s.sent, s.atTimeout, s.down.last)
    && TimesOk(s)
    && forall p :: p in s.net ==> PacketOk(p, chunk, s.sent, s.down.last)
  }

  // --------------------------------------------------------------- the sender's half

  lemma AckKeepsUpstream(u: Upstream, est: Estimator, ack: nat, now: int, sent: nat, atTimeout: nat)
    requires UpstreamOk(u, sent, atTimeout) && ack <= sent && u.up.queue != []
    ensures match OnAckPacket(u, est, ack, now)
            case Stops(verdict) =>
              verdict == ErrorExit && ack == u.up.lastAck && u.up.dupAck == 2 && ack < Acknowledged(u.up)
            case Finished => ack == MAX_PACKET_PER_CHUNK
            case Continues(u') =>
              && UpstreamOk(u', sent, atTimeout)
              && Acknowledged(u'.up) == Max(ack, Acknowledged(u.up))
              && u'.up.lastAck == ack && u'.up.lastTime == now
              && u'.up.dupAck == (if ack != u.up.lastAck || u.up.dupAck == 2 then 0 else u.up.dupAck + 1)
              && (u.win.policy == u'.win.policy)
              && !(ack == u.up.lastAck && u.up.dupAck == 2 && ack < Acknowledged(u.up))
  {
    hide Acknowledge;
    AcknowledgeKeepsShape(u.up, est, ack, now);
  }

  /** After the send step something is outstanding: new packets carry consecutive numbers and
      leave no more outstanding than the window allows, retransmissions repeat the oldest number
      and leave the queue as long as it was. */
  lemma SendKeepsUpstream(u: Upstream, chunk: seq<byte>, now: int, rto: int, sent: nat, atTimeout: nat)
    requires |chunk| == BT_CHUNK_SIZE && UpstreamOk(u, sent, atTimeout)
    ensures var r := Send(u, chunk, now, rto);
            var timedOut := TimedOut(u.up, now, rto).num != 0;
            var sent' := TailNumber(r.u.up);
            && UpstreamOk(r.u, sent', if timedOut then |u.up.queue| else atTimeout)
            && r.u.up.queue != []
            && Acknowledged(r.u.up) == Acknowledged(u.up)
            && r.u.up.lastAck == u.up.lastAck && r.u.up.dupAck == u.up.dupAck
            && r.u.win.maxCwnd == u.win.maxCwnd
            && (timedOut ==>
                  var num := Acknowledged(u.up) + 1;
                  sent' == sent && r.u.win.cwnd == 1 && r.packet == Some(Data(num, Slice(chunk, num))))
            && (!timedOut ==> r.u.win == u.win)
            && (!timedOut && r.packet.Some? ==>
                  && sent' == sent + 1 && r.packet == Some(Data(sent', Slice(chunk, sent')))
                  && |r.u.up.queue| <= u.win.cwnd)
            && (!timedOut && r.packet.None? ==>
                  r.u == u && sent' == sent && (|u.up.queue| >= u.win.cwnd || sent == MAX_PACKET_PER_CHUNK))
  {
    TimedOutKeepsShape(u.up, now, rto);
    var c := Choose(u, now, rto);
    if c.before.Some? && c.before.value < MAX_PACKET_PER_CHUNK {
      if c.timeout {
        RetransmitKeepsShape(c.u.up, c.before.value + 1, now);
      } else {
        EnqueueKeepsShape(c.u.up, false, now);
      }
    }
  }

  /** The three things that a send step can do, field by field. */
  lemma SendIs(u: Upstream, chunk: seq<byte>, now: int, rto: int, sent: nat, atTimeout: nat)
    requires |chunk| == BT_CHUNK_SIZE && UpstreamOk(u, sent, atTimeout) && u.up.queue != []
    ensures var r := Send(u, chunk, now, rto);
            var num := Acknowledged(u.up) + 1;
            if now - u.up.queue[0].stamp > rto then
              r == Sending(Upstream(Restamped(u.up, now), OnTimeout(u.win)), Some(Data(num, Slice(chunk, num))))
            else if |u.up.queue| < u.win.cwnd && sent < MAX_PACKET_PER_CHUNK then
              r.packet == Some(Data(sent + 1, Slice(chunk, sent + 1)))
            else r == Sending(u, None)
  {
    hide WindowOk, Slice;
  }

  lemma RetransmitKeepsShape(u: Upload, num: nat, now: int)
    requires Shape(u)
    ensures var r := Enqueue(u, num, true, now);
            Shape(r) && Acknowledged(r) == Acknowledged(u) && TailNumber(r) == TailNumber(u) && |r.queue| == |u.queue|
  {
  }

  // ------------------------------------------------------------- every step keeps it

  lemma AckKeepsTimes(u: Upstream, est: Estimator, ack: nat, clock: int, now: int)
    requires Sound(est) && Timed(u.up, clock) && clock <= now
    ensures Sound(Acknowledge(u.up, est, ack, now).est)
    ensures var effect := OnAckPacket(u, est, ack, now); effect.Continues? ==> Timed(effect.u.up, now)
  {
    hide Sound, Timed;
    AcknowledgeKeepsTimed(u.up, est, ack, clock, now);
  }

  lemma SendKeepsTimes(u: Upstream, chunk: seq<byte>, clock: int, now: int, rto: int)
    requires |chunk| == BT_CHUNK_SIZE && Timed(u.up, clock) && clock <= now
    ensures var r := Send(u, chunk, now, rto); Timed(r.u.up, now) && r.u.up.lastTime == u.up.lastTime
  {
  }

  lemma TimedLater(u: Upload, clock: int, now: int)
    requires Timed(u, clock) && clock <= now
    ensures Timed(u, now)
  {
  }

  /** The rest of a pass, from the state `s` that the acknowledgement left. */
  lemma SendAndCleanKeepsInv(s: State, u: Upstream, chunk: seq<byte>, tSend: int, tClean: int)
    requires |chunk| == BT_CHUNK_SIZE && tSend <= tClean && s.clock <= tClean
    requires s.down.last <= s.sent <= MAX_PACKET_PER_CHUNK && Faithful(s.down, chunk)
    requires forall p :: p in s.net ==> PacketOk(p, chunk, s.sent, s.down.last)
    requires Sound(s.est) && Sound(s.downEst) && s.downTime <= tClean && Timed(u.up, tSend)
    requires UpstreamOk(u, s.sent, s.atTimeout) && Acknowledged(u.up) <= s.down.last
    ensures Inv(SendAndClean(s, u, chunk, tSend, tClean), chunk)
  {
    hide Shape, WindowOk, Send, Faithful, TimedOut, Timed, Sound;
    SendKeepsUpstream(u, chunk, tSend, s.est.rto, s.sent, s.atTimeout);
    SendKeepsTimes(u, chunk, tSend, tSend, s.est.rto);
    TimedLater(Send(u, chunk, tSend, s.est.rto).u.up, tSend, tClean);
  }

  lemma PassKeepsInv(s: State, chunk: seq<byte>, step: Step)
    requires |chunk| == BT_CHUNK_SIZE && Inv(s, chunk) && Enabled(s, step) && step.Pass?
    ensures Inv(Next(s, chunk, step), chunk)
  {
    hide Shape, WindowOk, SendAndClean, Faithful, OnAckPacket, Acknowledge, Timed, Sound, PacketOk;
    var Pass(inbound, tAck, tSend, tClean) := step;
    var s' := s.(net := if inbound.None? then s.net else s.net - multiset{Ack(inbound.value)}, clock := tClean);
    if s.phase.Active? {
      var u := s.phase.u;
      if inbound.None? {
        TimedLater(u.up, s.clock, tSend);
        SendAndCleanKeepsInv(s', u, chunk, tSend, tClean);
      } else {
        var ack := inbound.value;
        AckInFlight(s, chunk, ack);
        AckKeepsUpstream(u, s.est, ack, tAck, s.sent, s.atTimeout);
        AckKeepsTimes(u, s.est, ack, s.clock, tAck);
        var effect := OnAckPacket(u, s.est, ack, tAck);
        if effect.Continues? {
          TimedLater(effect.u.up, tAck, tSend);
          SendAndCleanKeepsInv(s'.(est := Acknowledge(u.up, s.est, ack, tAck).est), effect.u, chunk, tSend, tClean);
        }
      }
    }
  }

  lemma AckInFlight(s: State, chunk: seq<byte>, ack: nat)
    requires |chunk| == BT_CHUNK_SIZE && Inv(s, chunk) && Ack(ack) in s.net
    ensures ack <= s.down.last && ack <= s.sent && 1 <= s.sent
    ensures s.phase.Active? ==> s.phase.u.up.queue != []
  {
    hide Faithful, UpstreamOk, TimesOk;
    assert PacketOk(Ack(ack), chunk, s.sent, s.down.last);
  }

  lemma DeliverKeepsInv(s: State, chunk: seq<byte>, num: nat, payload: seq<byte>, now: int)
    requires |chunk| == BT_CHUNK_SIZE && Inv(s, chunk) && Data(num, payload) in s.net && s.clock <= now
    ensures Inv(DeliverOf(s, num, payload, now), chunk)
  {
    hide Faithful, UpstreamOk, OnData, Timed, Sound;
    assert PacketOk(Data(num, payload), chunk, s.sent, s.down.last);
    OnDataFaithful(s.down, chunk, num);
    if s.phase.Active? {
      TimedLater(s.phase.u.up, s.clock, now);
    }
  }

  lemma GiveUpFaithful(d: Downstream, chunk: seq<byte>, lastTime: int, rto: int, now: int)
    requires |chunk| == BT_CHUNK_SIZE && Faithful(d, chunk)
    ensures Faithful(GiveUp(d, lastTime, rto, now), chunk)
  {
  }

  lemma LookKeepsInv(s: State, chunk: seq<byte>, now: int)
    requires |chunk| == BT_CHUNK_SIZE && Inv(s, chunk) && s.clock <= now
    ensures Inv(Next(s, chunk, Look(now)), chunk)
  {
    hide Faithful, UpstreamOk, PacketOk, Timed, Sound;
    GiveUpFaithful(s.down, chunk, s.downTime, s.downEst.rto, now);
    if s.phase.Active? {
      TimedLater(s.phase.u.up, s.clock, now);
    }
  }

  lemma SampleKeepsInv(s: State, chunk: seq<byte>, step: Step)
    requires |chunk| == BT_CHUNK_SIZE && Inv(s, chunk) && step.Sample?
    ensures Inv(Next(s, chunk, step), chunk)
  {
    hide Faithful, PhaseOk, PacketOk, Timed, Sound, Infer;
    InferKeepsSound(s.est, step.sample);
    InferKeepsSound(s.downEst, step.sample);
  }

  lemma StepKeepsInv(s: State, chunk: seq<byte>, step: Step)
    requires |chunk| == BT_CHUNK_SIZE && Inv(s, chunk) && Enabled(s, step)
    ensures Inv(Next(s, chunk, step), chunk)
  {
    hide Faithful, PhaseOk, PacketOk, PassOf, DeliverOf, Timed, Sound;
    match step
    case Pass(_, _, _, _) => PassKeepsInv(s, chunk, step);
    case Deliver(num, payload, now) => DeliverKeepsInv(s, chunk, num, payload, now);
    case Look(now) => LookKeepsInv(s, chunk, now);
    case Sample(_, _) => SampleKeepsInv(s, chunk, step);
    case Lose(p) =>
    case Duplicate(p) =>
  }

  lemma {:induction false} RunKeepsInv(s: State, chunk: seq<byte>, steps: seq<Step>)
    requires |chunk| == BT_CHUNK_SIZE && Inv(s, chunk) && Possible(s, chunk, steps)
    ensures Inv(Run(s, chunk, steps), chunk)
    decreases |steps|
  {
    hide Inv, Next, Enabled;
    if steps != [] {
      StepKeepsInv(s, chunk, steps[0]);
      RunKeepsInv(Next(s, chunk, steps[0]), chunk, steps[1..]);
    }
  }
}
