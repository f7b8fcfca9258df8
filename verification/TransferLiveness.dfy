/**
  How sessions can still deliver their chunk.

  Runs are built step by step, each pass with the estimator that the process holds at that point.
  A session is taken alone here: no other upload of the two processes moves their estimators. A
  pass of either loop may come late, and DATA that has arrived is handled before the receiver looks
  for a dead peer, as in the main loop.
 */
module TransferLiveness {
  import opened Wrappers
  import opened Common
  import opened RoundTrip
  import opened CongestionControl
  import opened SentQueue
  import opened Sender
  import opened Receiver
  import opened Transfer
  import opened TransferRuns

  ghost predicate Lone(steps: seq<Step>)
  {
    forall i :: 0 <= i < |steps| ==> !steps[i].Sample?
  }

  ghost predicate CanComplete(s: State, chunk: seq<byte>)
    requires |chunk| == BT_CHUNK_SIZE
  {
    exists steps :: Lone(steps) && Possible(s, chunk, steps) && Run(s, chunk, steps).down.status == Complete
  }

  /** The invariant, a live upload, and a download that is running without a repeat. */
  ghost predicate Live(s: State, chunk: seq<byte>)
    requires |chunk| == BT_CHUNK_SIZE
  {
    Inv(s, chunk) && s.phase.Active? && s.down.status == Running && |s.down.log| == s.down.last
  }

  lemma CompleteAlready(s: State, chunk: seq<byte>)
    requires |chunk| == BT_CHUNK_SIZE && s.down.status == Complete
    ensures CanComplete(s, chunk)
  {
    assert Lone([]) && Possible(s, chunk, []) && Run(s, chunk, []).down.status == Complete;
  }

  lemma CompleteAfter(s: State, chunk: seq<byte>, step: Step)
    requires |chunk| == BT_CHUNK_SIZE && Enabled(s, step) && !step.Sample? && CanComplete(Next(s, chunk, step), chunk)
    ensures CanComplete(s, chunk)
  {
    hide Enabled, Next;
    var s' := Next(s, chunk, step);
    var steps :| Lone(steps) && Possible(s', chunk, steps) && Run(s', chunk, steps).down.status == Complete;
    Prepend(s, chunk, step, steps);
    assert Lone([step] + steps);
  }

  // ------------------------------------------------------------ time and room

  ghost function Deadline(s: State): int
    requires s.phase.Active?
  {
    s.phase.u.up.lastTime + ABORT_COEFF * s.est.rto
  }

  /** The earliest pass in which the oldest outstanding packet times out. */
  ghost function TimeoutAt(s: State): int
    requires s.phase.Active? && s.phase.u.up.queue != []
  {
    Max(s.clock, s.phase.u.up.queue[0].stamp + s.est.rto + 1)
  }

  /** A pass can still send a new packet: the window has room, and the oldest outstanding packet
      has not timed out. */
  ghost predicate HasRoom(s: State)
    requires s.phase.Active?
  {
    var u := s.phase.u;
    && u.up.size < u.win.cwnd && s.sent < MAX_PACKET_PER_CHUNK
    && (u.up.queue == [] || s.clock <= u.up.queue[0].stamp + s.est.rto)
  }

  // ------------------------------------------------------------------- steps

  /** A pass in which the oldest outstanding packet times out; the upload outlives it in time. */
  lemma TimeoutPass(s: State, chunk: seq<byte>) returns (step: Step)
    requires |chunk| == BT_CHUNK_SIZE && Inv(s, chunk) && s.phase.Active? && s.phase.u.up.queue != []
    ensures step == Pass(None, TimeoutAt(s), TimeoutAt(s), TimeoutAt(s)) && Enabled(s, step)
    ensures var s' := Next(s, chunk, step);
            var num := Acknowledged(s.phase.u.up) + 1;
            && s'.phase.Active? == (TimeoutAt(s) <= Deadline(s)) && s'.down == s.down && s'.sent == s.sent
            && (s'.phase.Active? ==> Acknowledged(s'.phase.u.up) == Acknowledged(s.phase.u.up))
            && s'.net == s.net + multiset{Data(num, Slice(chunk, num))}
  {
    hide Shape, WindowOk, Send, Faithful, Sound, Timed;
    var u, t := s.phase.u, TimeoutAt(s);
    step := Pass(None, t, t, t);
    TimedOutKeepsShape(u.up, t, s.est.rto);
    SendKeepsUpstream(u, chunk, t, s.est.rto, s.sent, s.atTimeout);
  }

  /** A pass in which nothing times out and the window has room. */
  lemma FreshPass(s: State, chunk: seq<byte>) returns (step: Step)
    requires |chunk| == BT_CHUNK_SIZE && Inv(s, chunk) && s.phase.Active? && HasRoom(s)
    ensures step == Pass(None, s.clock, s.clock, s.clock) && Enabled(s, step)
    ensures var s' := Next(s, chunk, step);
            && s'.phase.Active? == (s.clock <= Deadline(s)) && s'.down == s.down && s'.sent == s.sent + 1
            && (s'.phase.Active? ==> Acknowledged(s'.phase.u.up) == Acknowledged(s.phase.u.up))
            && s'.net == s.net + multiset{Data(s.sent + 1, Slice(chunk, s.sent + 1))}
  {
    hide Shape, WindowOk, Send, Faithful, Sound, Timed;
    var u := s.phase.u;
    step := Pass(None, s.clock, s.clock, s.clock);
    assert u.up.size == |u.up.queue| by { SizeIsLength(u, s.sent, s.atTimeout); }
    SendKeepsUpstream(u, chunk, s.clock, s.est.rto, s.sent, s.atTimeout);
  }

  lemma SizeIsLength(u: Upstream, sent: nat, atTimeout: nat)
    requires UpstreamOk(u, sent, atTimeout)
    ensures u.up.size == |u.up.queue|
  {
  }

  /** A pass at time `t` that hands in an acknowledgement from the network. */
  lemma AckPass(s: State, chunk: seq<byte>, ack: nat, t: int) returns (step: Step)
    requires |chunk| == BT_CHUNK_SIZE && Inv(s, chunk) && s.phase.Active?
    requires Ack(ack) in s.net && ack < MAX_PACKET_PER_CHUNK && s.clock <= t
    ensures step == Pass(Some(ack), t, t, t) && Enabled(s, step)
    ensures var s' := Next(s, chunk, step);
            var up := s.phase.u.up;
            && s'.down == s.down && s.net - multiset{Ack(ack)} <= s'.net && s'.clock == t
            && s'.est == Acknowledge(up, s.est, ack, t).est
            && (if ack == up.lastAck && up.dupAck == 2 && ack < Acknowledged(up) then s'.phase.Crashed?
                else && s'.phase.Active?
                     && Acknowledged(s'.phase.u.up) == Max(ack, Acknowledged(up))
                     && s'.phase.u.up.lastAck == ack && s'.phase.u.up.lastTime == t
                     && s'.phase.u.up.dupAck == if ack != up.lastAck || up.dupAck == 2 then 0 else up.dupAck + 1)
  {
    hide Shape, WindowOk, Send, Faithful, Acknowledge, Timed, OnAckPacket, Sound, PacketOk;
    step := Pass(Some(ack), t, t, t);
    var u := s.phase.u;
    AckInFlight(s, chunk, ack);
    AckKeepsUpstream(u, s.est, ack, t, s.sent, s.atTimeout);
    AckKeepsTimes(u, s.est, ack, s.clock, t);
    EarlyAckDoesNotFinish(u, s.est, ack, t);
    var effect, rto := OnAckPacket(u, s.est, ack, t), Acknowledge(u.up, s.est, ack, t).est.rto;
    assert 0 <= rto by { SoundTimeout(Acknowledge(u.up, s.est, ack, t).est); }
    if effect.Continues? {
      SendKeepsUpstream(effect.u, chunk, t, rto, s.sent, s.atTimeout);
      SendKeepsTimes(effect.u, chunk, t, t, rto);
    }
  }

  lemma SoundTimeout(e: Estimator)
    requires Sound(e)
    ensures 0 <= e.rto
  {
  }

  lemma EarlyAckDoesNotFinish(u: Upstream, est: Estimator, ack: nat, now: int)
    requires ack != MAX_PACKET_PER_CHUNK
    ensures !OnAckPacket(u, est, ack, now).Finished?
  {
    hide Acknowledge;
  }

  /** The next packet in order is taken, and answered. */
  lemma AcceptNext(s: State, chunk: seq<byte>)
    requires |chunk| == BT_CHUNK_SIZE && Inv(s, chunk) && s.down.status == Running && |s.down.log| == s.down.last
    requires s.down.last < MAX_PACKET_PER_CHUNK && Data(s.down.last + 1, Slice(chunk, s.down.last + 1)) in s.net
    ensures var step := Deliver(s.down.last + 1, Slice(chunk, s.down.last + 1), s.clock);
            var s' := Next(s, chunk, step);
            && Enabled(s, step)
            && Inv(s', chunk) && s'.phase == s.phase
            && s'.down.last == s.down.last + 1 == |s'.down.log|
            && Ack(s'.down.last) in s'.net
            && (s'.down.status == if s'.down.last == MAX_PACKET_PER_CHUNK then Complete else Running)
  {
    hide UpstreamOk, PacketOk, TimesOk;
    StepKeepsInv(s, chunk, Deliver(s.down.last + 1, Slice(chunk, s.down.last + 1), s.clock));
  }

  /** A packet that is neither the newest nor the next is answered and dropped. */
  lemma AnswerOther(s: State, chunk: seq<byte>, num: nat)
    requires |chunk| == BT_CHUNK_SIZE && Live(s, chunk) && 1 <= num <= MAX_PACKET_PER_CHUNK
    requires num != s.down.last && num != s.down.last + 1 && Data(num, Slice(chunk, num)) in s.net
    ensures var step := Deliver(num, Slice(chunk, num), s.clock);
            var s' := Next(s, chunk, step);
            && Enabled(s, step)
            && Live(s', chunk) && s'.phase == s.phase && s'.down == s.down && Ack(s'.down.last) in s'.net
  {
    hide UpstreamOk, PacketOk, TimesOk;
    StepKeepsInv(s, chunk, Deliver(num, Slice(chunk, num), s.clock));
  }

  lemma LiveBound(s: State, chunk: seq<byte>)
    requires |chunk| == BT_CHUNK_SIZE && Live(s, chunk)
    ensures s.down.last < MAX_PACKET_PER_CHUNK
  {
    hide TimesOk, UpstreamOk, PacketOk;
  }

  // -------------------------------------------------------- what can still finish

  /** The third duplicate of a stale acknowledgement, which stops the process. */
  ghost predicate Fatal(up: Upload, ack: nat)
  {
    ack == up.lastAck && up.dupAck == 2 && ack < Acknowledged(up)
  }

  /** An acknowledgement moves the sender on. Seven units after the latest stamp it leaves a timeout
      above zero, so that the next packet can time out before the deadline. */
  lemma HearNew(s: State, chunk: seq<byte>, ack: nat) returns (step: Step)
    requires |chunk| == BT_CHUNK_SIZE && Live(s, chunk) && Ack(ack) in s.net
    requires Acknowledged(s.phase.u.up) < ack
    ensures Enabled(s, step) && step.Pass?
    ensures var s' := Next(s, chunk, step);
            && Live(s', chunk) && s'.down == s.down
            && Acknowledged(s'.phase.u.up) == ack && s'.phase.u.up.queue != []
            && TimeoutAt(s') <= Deadline(s')
  {
    hide Shape, WindowOk, Faithful, Next, Enabled, PacketOk, Sound, Pop, Infer;
    LiveBound(s, chunk);
    AckInFlight(s, chunk, ack);
    step := AckPass(s, chunk, ack, s.clock + 7);
    StepKeepsInv(s, chunk, step);
    var up := s.phase.u.up;
    PopIs(up, 0, s.est, ack, s.clock + 7);
    InferKeepsSound(s.est, s.clock + 7 - up.queue[ack - Acknowledged(up) - 1].stamp);
  }

  /** An acknowledgement that says nothing new can be handed in at a pass that comes late enough to
      send the oldest outstanding packet again. */
  lemma HearOld(s: State, chunk: seq<byte>, ack: nat) returns (step: Step)
    requires |chunk| == BT_CHUNK_SIZE && Live(s, chunk) && Ack(ack) in s.net
    requires ack <= Acknowledged(s.phase.u.up) && !Fatal(s.phase.u.up, ack)
    ensures Enabled(s, step) && step.Pass?
    ensures var s' := Next(s, chunk, step);
            var num := Acknowledged(s.phase.u.up) + 1;
            && Live(s', chunk) && s'.down == s.down && Data(num, Slice(chunk, num)) in s'.net
  {
    hide WindowOk, Faithful, Next, Enabled, PacketOk, Sound, Infer;
    LiveBound(s, chunk);
    AckInFlight(s, chunk, ack);
    step := AckPass(s, chunk, ack, TimeoutAt(s));
    StepKeepsInv(s, chunk, step);
    OldAckSends(s, chunk, ack);
  }

  lemma OldAckSends(s: State, chunk: seq<byte>, ack: nat)
    requires |chunk| == BT_CHUNK_SIZE && Inv(s, chunk) && s.phase.Active? && s.phase.u.up.queue != []
    requires ack <= Acknowledged(s.phase.u.up) < MAX_PACKET_PER_CHUNK && !Fatal(s.phase.u.up, ack)
    ensures var num := Acknowledged(s.phase.u.up) + 1;
            var s' := Next(s, chunk, Pass(Some(ack), TimeoutAt(s), TimeoutAt(s), TimeoutAt(s)));
            Data(num, Slice(chunk, num)) in s'.net
  {
    hide Faithful, PacketOk, Infer, WindowOk, Slice, Send, OnAckPacket, OnAck;
    var u, t := s.phase.u, TimeoutAt(s);
    OldAckIsNoted(u, s.est, ack, t);
    AckKeepsUpstream(u, s.est, ack, t, s.sent, s.atTimeout);
    SendKeepsUpstream(OnAckPacket(u, s.est, ack, t).u, chunk, t, s.est.rto, s.sent, s.atTimeout);
  }

  /** What an acknowledgement that says nothing new leaves of the queue: a third duplicate makes the
      oldest packet look a timeout older. */
  function Noted(u: Upload, ack: nat, rto: int, now: int): Upload
    requires u.queue != []
  {
    var third := ack == u.lastAck && u.dupAck == 2;
    var u' := u.(lastAck := ack, lastTime := now, dupAck := if ack != u.lastAck || third then 0 else u.dupAck + 1);
    if third then Restamped(u', u.queue[0].stamp - rto) else u'
  }

  lemma OldAckIsNoted(u: Upstream, est: Estimator, ack: nat, t: int)
    requires Shape(u.up) && u.up.queue != [] && ack <= Acknowledged(u.up) < MAX_PACKET_PER_CHUNK && !Fatal(u.up, ack)
    ensures Acknowledge(u.up, est, ack, t).est == est
    ensures OnAckPacket(u, est, ack, t) == Continues(Upstream(Noted(u.up, ack, est.rto, t), OnAck(u.win, 0)))
  {
    hide OnAck;
    assert Pop(u.up.queue, 0, est, ack, t) == Popped(0, est);
    assert u.up.queue[0..] == u.up.queue;
  }

  lemma NotedKeeps(u: Upload, ack: nat, rto: int, now: int)
    requires u.queue != []
    ensures var u' := Noted(u, ack, rto, now);
            && |u'.queue| == |u.queue| && u'.size == u.size && TailNumber(u') == TailNumber(u)
            && Acknowledged(u') == Acknowledged(u) && u'.lastAck == ack && u'.lastTime == now
            && (Shape(u) && ack <= Acknowledged(u) ==> Shape(u'))
  {
  }

  /** An acknowledgement in flight, unless it is fatal, lets the transfer finish if it leaves the
      sender with another oldest packet than the receiver's newest: retransmission by retransmission
      if need be. That of the newest packet itself always does. */
  lemma {:induction false} HeardCanComplete(s: State, chunk: seq<byte>, ack: nat)
    requires |chunk| == BT_CHUNK_SIZE && Live(s, chunk) && Ack(ack) in s.net && !Fatal(s.phase.u.up, ack)
    requires Max(ack, Acknowledged(s.phase.u.up)) + 1 != s.down.last
    ensures CanComplete(s, chunk)
    decreases MAX_PACKET_PER_CHUNK - s.down.last, if ack == s.down.last then 2 else 4
  {
    hide CanComplete, Next, Enabled, Faithful, PacketOk, UpstreamOk, TimesOk, TimeoutAt, Deadline, Fatal;
    LiveBound(s, chunk);
    AckInFlight(s, chunk, ack);
    if ack <= Acknowledged(s.phase.u.up) {
      var step := HearOld(s, chunk, ack);
      RetransmittedCanComplete(Next(s, chunk, step), chunk, Acknowledged(s.phase.u.up) + 1, ack == s.down.last);
      CompleteAfter(s, chunk, step);
    } else {
      var step := HearNew(s, chunk, ack);
      var s1 := Next(s, chunk, step);
      var again := TimeoutPass(s1, chunk);
      StepKeepsInv(s1, chunk, again);
      RetransmittedCanComplete(Next(s1, chunk, again), chunk, ack + 1, ack == s.down.last);
      CompleteAfter(s1, chunk, again);
      CompleteAfter(s, chunk, step);
    }
  }

  /** Any packet in flight other than the newest is the next one, or brings an answer. */
  lemma {:induction false} RetransmittedCanComplete(s: State, chunk: seq<byte>, num: nat, next: bool)
    requires |chunk| == BT_CHUNK_SIZE && Live(s, chunk) && 1 <= num <= MAX_PACKET_PER_CHUNK
    requires num != s.down.last && Data(num, Slice(chunk, num)) in s.net && (next ==> num == s.down.last + 1)
    ensures CanComplete(s, chunk)
    decreases MAX_PACKET_PER_CHUNK - s.down.last, if next then 1 else 3
  {
    hide CanComplete, Next, Enabled, Faithful, PacketOk, UpstreamOk, TimesOk;
    LiveBound(s, chunk);
    if num == s.down.last + 1 {
      NextCanComplete(s, chunk);
    } else {
      var deliver := Deliver(num, Slice(chunk, num), s.clock);
      AnswerOther(s, chunk, num);
      NewestIsNotFatal(Next(s, chunk, deliver), chunk);
      HeardCanComplete(Next(s, chunk, deliver), chunk, s.down.last);
      CompleteAfter(s, chunk, deliver);
    }
  }

  lemma NewestIsNotFatal(s: State, chunk: seq<byte>)
    requires |chunk| == BT_CHUNK_SIZE && Live(s, chunk)
    ensures !Fatal(s.phase.u.up, s.down.last) && Acknowledged(s.phase.u.up) <= s.down.last
  {
    hide Faithful, PacketOk, UpstreamOk, TimesOk;
  }

  /** The next packet in order is in flight. */
  lemma {:induction false} NextCanComplete(s: State, chunk: seq<byte>)
    requires |chunk| == BT_CHUNK_SIZE && Inv(s, chunk) && s.down.status == Running && |s.down.log| == s.down.last
    requires s.down.last < MAX_PACKET_PER_CHUNK && Data(s.down.last + 1, Slice(chunk, s.down.last + 1)) in s.net
    requires s.phase.Active? || s.down.last == MAX_PACKET_PER_CHUNK - 1
    ensures CanComplete(s, chunk)
    decreases MAX_PACKET_PER_CHUNK - s.down.last, 0
  {
    hide CanComplete, Next, Enabled, Faithful, PacketOk, UpstreamOk, TimesOk;
    var deliver := Deliver(s.down.last + 1, Slice(chunk, s.down.last + 1), s.clock);
    AcceptNext(s, chunk);
    var s' := Next(s, chunk, deliver);
    if s'.down.status == Complete {
      CompleteAlready(s', chunk);
    } else {
      NewestIsNotFatal(s', chunk);
      HeardCanComplete(s', chunk, s'.down.last);
    }
    CompleteAfter(s, chunk, deliver);
  }

  // ----------------------------------------------------- when nothing else comes

  /** The oldest outstanding packet is not the receiver's newest and times out before the upload
      is given up. */
  ghost predicate CanRetransmit(s: State)
    requires s.phase.Active?
  {
    var up := s.phase.u.up;
    up.queue != [] && Acknowledged(up) + 1 != s.down.last && TimeoutAt(s) <= Deadline(s)
  }

  /** A new packet can be sent before the upload is given up. */
  ghost predicate CanSendNew(s: State)
    requires s.phase.Active?
  {
    HasRoom(s) && s.clock <= Deadline(s)
  }

  /** Only packet 354 is missing, and the pass that gives the upload up can send it first. */
  ghost predicate CanSendLast(s: State)
    requires s.phase.Active?
  {
    s.down.last == MAX_PACKET_PER_CHUNK - 1 &&
    (Acknowledged(s.phase.u.up) == s.down.last || (s.sent == s.down.last && HasRoom(s)))
  }

  ghost predicate Recoverable(s: State)
    requires s.phase.Active?
  {
    CanRetransmit(s) || CanSendNew(s) || CanSendLast(s)
  }

  lemma RecoverableCanComplete(s: State, chunk: seq<byte>)
    requires |chunk| == BT_CHUNK_SIZE && Live(s, chunk) && Recoverable(s)
    ensures CanComplete(s, chunk)
  {
    hide CanComplete, Next, Enabled, Faithful, PacketOk, Shape, WindowOk, TimesOk, HasRoom, TimeoutAt, Deadline;
    LiveBound(s, chunk);
    var step, num;
    if CanSendNew(s) || (CanSendLast(s) && Acknowledged(s.phase.u.up) != s.down.last) {
      step := FreshPass(s, chunk);
      num := s.sent + 1;
    } else {
      if s.phase.u.up.queue == [] {
        QueueOfLast(s, chunk);
      }
      step := TimeoutPass(s, chunk);
      num := Acknowledged(s.phase.u.up) + 1;
    }
    StepKeepsInv(s, chunk, step);
    var s' := Next(s, chunk, step);
    if num == s.down.last + 1 {
      NextCanComplete(s', chunk);
    } else {
      RetransmittedCanComplete(s', chunk, num, false);
    }
    CompleteAfter(s, chunk, step);
  }

  lemma QueueOfLast(s: State, chunk: seq<byte>)
    requires |chunk| == BT_CHUNK_SIZE && Live(s, chunk) && s.phase.u.up.queue == []
    ensures s.sent == s.down.last == 0 == Acknowledged(s.phase.u.up)
  {
    hide Faithful, PacketOk, TimesOk, WindowOk;
  }

  // ----------------------------------------------------- a flood of stale answers

  ghost predicate CanCrash(s: State, chunk: seq<byte>)
    requires |chunk| == BT_CHUNK_SIZE
  {
    exists steps :: Lone(steps) && Possible(s, chunk, steps) && Run(s, chunk, steps).phase == Crashed(ErrorExit)
  }

  /** Stale copies of one acknowledgement stop the sending process as soon as there are enough of
      them to be counted to three: four, or fewer if the last one handed in was the same. */
  lemma {:induction false} StaleCopiesStopTheSender(s: State, chunk: seq<byte>, ack: nat)
    requires |chunk| == BT_CHUNK_SIZE && Inv(s, chunk) && s.phase.Active?
    requires ack < Acknowledged(s.phase.u.up)
    requires s.net[Ack(ack)] >= if s.phase.u.up.lastAck == ack then 3 - s.phase.u.up.dupAck else 4
    ensures CanCrash(s, chunk)
    decreases if s.phase.u.up.lastAck == ack then 3 - s.phase.u.up.dupAck else 4
  {
    hide Next, Enabled, Faithful, PacketOk, WindowOk, TimesOk, Acknowledge;
    var step := AckPass(s, chunk, ack, s.clock);
    var s' := Next(s, chunk, step);
    StepKeepsInv(s, chunk, step);
    var steps: seq<Step> := [];
    if s'.phase.Crashed? {
      assert PhaseOk(s'.phase, s'.sent, s'.atTimeout, s'.down.last);
      assert Run(s', chunk, steps) == s';
    } else {
      StaleCopiesStopTheSender(s', chunk, ack);
      steps :| Lone(steps) && Possible(s', chunk, steps) && Run(s', chunk, steps).phase == Crashed(ErrorExit);
    }
    Prepend(s, chunk, step, steps);
    assert Lone([step] + steps);
  }
}
