/**
  Exactly which sessions can still deliver their chunk.
 */
module TransferVerdict {
  import opened Wrappers
  import opened Common
  import opened RoundTrip
  import opened CongestionControl
  import opened SentQueue
  import opened Sender
  import opened Receiver
  import opened Transfer
  import opened TransferRuns
  import opened TransferLiveness
  import opened TransferWindow
  import opened TransferCopies

  // ----------------------------------------------------------------- what is lost

  /** Some packet still missing at the receiver is not in flight. */
  ghost predicate Gap(s: State, chunk: seq<byte>)
    requires |chunk| == BT_CHUNK_SIZE
  {
    exists k :: s.down.last < k <= MAX_PACKET_PER_CHUNK && Data(k, Slice(chunk, k)) !in s.net
  }

  /** Nothing travels but the newest packet and acknowledgements that stop the sender or leave it with
      the newest packet as its oldest. */
  ghost predicate OnlyNewest(s: State)
    requires s.phase.Active?
  {
    forall p :: p in s.net ==>
      if p.Data? then p.num == s.down.last
      else Fatal(s.phase.u.up, p.ack) || Max(p.ack, Acknowledged(s.phase.u.up)) + 1 == s.down.last
  }

  /** One stale acknowledgement is all there is, and too few copies of it can be handed in. */
  ghost predicate Short(s: State)
    requires s.phase.Active? && s.phase.u.up.queue != [] && Acknowledged(s.phase.u.up) + 1 == s.down.last
  {
    exists j: nat ::
      && j < Acknowledged(s.phase.u.up)
      && (forall ack: nat :: Ack(ack) in s.net ==> ack == j)
      && BestWindow(s).cwnd + Hands(s, j) <= Beyond(s)
  }

  /** Copies of the acknowledgement before the newest are all there is, and they do not make room. */
  ghost predicate Tight(s: State)
    requires s.phase.Active?
  {
    (forall ack: nat :: Ack(ack) in s.net ==> ack + 1 == s.down.last) && !CopiesOpen(s)
  }

  /** No new packet can ever be sent. */
  ghost predicate NeverWidens(s: State)
    requires s.phase.Active?
  {
    var up := s.phase.u.up;
    || (forall ack: nat :: !Hopeful(s, ack))
    || s.sent == MAX_PACKET_PER_CHUNK
    || (up.queue != [] && Acknowledged(up) < s.down.last && Shut(BestWindow(s), Beyond(s)))
    || (up.queue != [] && Acknowledged(up) + 1 == s.down.last && Short(s))
    || (up.queue != [] && Tight(s))
  }

  ghost predicate Stuck(s: State)
    requires s.phase.Active?
  {
    OnlyNewest(s) && !Recoverable(s) && NeverWidens(s)
  }

  /** A payload was appended twice, or the receiver has given up; or the sender has stopped with a
      packet missing; or it can neither recover nor be helped by what is in flight. */
  ghost predicate Doomed(s: State, chunk: seq<byte>)
    requires |chunk| == BT_CHUNK_SIZE
  {
    && Inv(s, chunk) && s.down.status != Complete
    && (|| HasRepeat(s.down.log)
        || s.down.status != Running
        || (if s.phase.Active? then Stuck(s) else Gap(s, chunk)))
  }

  lemma RepeatPersists(s: State, chunk: seq<byte>, step: Step)
    requires |chunk| == BT_CHUNK_SIZE && Inv(s, chunk) && Enabled(s, step) && HasRepeat(s.down.log)
    ensures HasRepeat(Next(s, chunk, step).down.log)
  {
    hide Next, Inv, Enabled;
    StepGrowsLog(s, chunk, step);
    var i :| 0 < i < |s.down.log| && s.down.log[i] == s.down.log[i - 1];
    var log := Next(s, chunk, step).down.log;
    assert log[i] == log[i - 1];
  }

  lemma AppendRepeats(log: seq<nat>, num: nat)
    requires log != [] && log[|log| - 1] == num
    ensures HasRepeat(log + [num])
  {
    assert (log + [num])[|log|] == (log + [num])[|log| - 1];
  }

  /** The bound that a running download keeps, repeats or not. */
  lemma RunningBound(s: State, chunk: seq<byte>)
    requires |chunk| == BT_CHUNK_SIZE && Inv(s, chunk) && s.down.status == Running
    ensures s.down.last < MAX_PACKET_PER_CHUNK
  {
    hide TimesOk, PhaseOk, PacketOk;
    RunningLength(s.down, chunk);
  }

  // ------------------------------------------------------- the corner, step by step

  /** The window of a cornered sender after a step, and what it may still do. */
  lemma CornerIsShut(s: State, n: int)
    requires s.phase.Active? && s.phase.u.up.queue != [] && Acknowledged(s.phase.u.up) + 1 == s.down.last
    requires Shut(s.phase.u.win, n) && Plain(s.phase.u.win) && 1 <= n
    ensures Shut(BestWindow(s), n)
  {
    hide Shut, InTime;
    ShutAfterTimeout(s.phase.u.win, n);
    ShutAfterLateAck(s.phase.u.win, n);
  }

  lemma CornerIsShort(s: State, j: nat)
    requires s.phase.Active? && s.phase.u.up.queue != [] && Acknowledged(s.phase.u.up) + 1 == s.down.last
    requires 1 <= s.phase.u.win.cwnd && s.phase.u.win.cwnd + Spare(s.phase.u.up, j) <= Beyond(s)
    requires j < Acknowledged(s.phase.u.up) && forall ack: nat :: Ack(ack) in s.net ==> ack == j
    ensures Short(s)
  {
    hide InTime;
    assert BestWindow(s).cwnd + Hands(s, j) <= Beyond(s);
  }

  /** A cornered sender with no room cannot recover. */
  lemma NoRoomNoRecovery(s: State)
    requires s.phase.Active? && Acknowledged(s.phase.u.up) + 1 == s.down.last
    requires s.phase.u.up.size == Beyond(s) && (s.phase.u.win.cwnd <= Beyond(s) || s.sent == MAX_PACKET_PER_CHUNK)
    ensures !Recoverable(s)
  {
  }

  /** A sender that has stopped with nothing but the newest packet and one other in flight. */
  lemma StoppedLeavesGap(s: State, s': State, chunk: seq<byte>, num: nat)
    requires |chunk| == BT_CHUNK_SIZE && s.phase.Active? && OnlyNewest(s) && s'.down == s.down
    requires s.down.last + 1 <= MAX_PACKET_PER_CHUNK
    requires forall p :: p in s'.net && p.Data? ==> p in s.net || p.num == num
    requires num == s.down.last + 1 ==> s.down.last + 2 <= MAX_PACKET_PER_CHUNK
    ensures Gap(s', chunk)
  {
    hide Slice, Fatal;
    var next := s.down.last + 1;
    var k := if num == next then next + 1 else next;
    assert Data(k, Slice(chunk, k)) !in s'.net;
  }

  /** A pass that hands in nothing. */
  lemma StuckQuietPass(s: State, chunk: seq<byte>, step: Step)
    requires |chunk| == BT_CHUNK_SIZE && Enabled(s, step) && step.Pass? && step.inbound.None?
    requires Inv(s, chunk) && s.down.status == Running && s.phase.Active? && Stuck(s)
    ensures var s' := Next(s, chunk, step);
            s'.down == s.down && if s'.phase.Active? then Stuck(s') else Gap(s', chunk)
  {
    hide Inv, Send, Next, Slice;
    RunningBound(s, chunk);
    UpstreamFacts(s, chunk);
    QuietPassIs(s, chunk, step);
    var u, s' := s.phase.u, Next(s, chunk, step);
    if u.up.queue == [] {
      EmptyQueueSends(s, chunk, step);
    } else {
      SendIs(u, chunk, step.tSend, s.est.rto, s.sent, s.atTimeout);
      if step.tSend - u.up.queue[0].stamp > s.est.rto {
        StuckTimeout(s, s', chunk, step);
      } else {
        hide OnlyNewest, NeverWidens;
        if |u.up.queue| < u.win.cwnd && s.sent < MAX_PACKET_PER_CHUNK {
          assert HasRoom(s);
          assert OnlyNewest(s);
          StoppedLeavesGap(s, s', chunk, s.sent + 1);
        } else {
          if s'.phase.Active? {
            EstimateIsSound(s, chunk);
            StuckStays(s, s');
          } else {
            assert OnlyNewest(s);
            StoppedLeavesGap(s, s', chunk, s.down.last);
          }
        }
      }
    }
  }

  /** An upload that has not sent anything has an empty network, and closes only when out of time. */
  lemma EmptyQueueSends(s: State, chunk: seq<byte>, step: Step)
    requires |chunk| == BT_CHUNK_SIZE && Enabled(s, step) && step.Pass? && step.inbound.None?
    requires Inv(s, chunk) && s.down.status == Running && s.phase.Active? && Stuck(s) && s.phase.u.up.queue == []
    ensures var s' := Next(s, chunk, step); s'.down == s.down && !s'.phase.Active? && Gap(s', chunk)
  {
    hide Inv, Next, Slice, NeverWidens, Send;
    UpstreamFacts(s, chunk);
    QuietPassIs(s, chunk, step);
    assert HasRoom(s);
    SendKeepsUpstream(s.phase.u, chunk, step.tSend, s.est.rto, s.sent, s.atTimeout);
    StoppedLeavesGap(s, Next(s, chunk, step), chunk, 1);
  }

  /** The oldest packet times out: it is the newest again, or the upload is given up. */
  lemma StuckTimeout(s: State, s': State, chunk: seq<byte>, step: Step)
    requires |chunk| == BT_CHUNK_SIZE && Enabled(s, step) && step.Pass?
    requires Inv(s, chunk) && s.down.status == Running && s.phase.Active? && Stuck(s) && s.phase.u.up.queue != []
    requires step.tSend - s.phase.u.up.queue[0].stamp > s.est.rto
    requires var u := Upstream(Restamped(s.phase.u.up, step.tSend), OnTimeout(s.phase.u.win));
             s'.phase == if step.tClean <= Deadline(s) then Active(u) else Phase.Closed(false)
    requires var num := Acknowledged(s.phase.u.up) + 1; s'.net == s.net + multiset{Data(num, Slice(chunk, num))}
    requires s'.est == s.est && s'.down == s.down && s'.sent == s.sent && s'.clock == step.tClean
    ensures if s'.phase.Active? then Stuck(s') else Gap(s', chunk)
  {
    hide Inv, Slice, NeverWidens, Shut, HasRoom;
    RunningBound(s, chunk);
    UpstreamFacts(s, chunk);
    var u := s.phase.u;
    if s'.phase.Active? {
      RestampedKeeps(u.up, step.tSend, 0);
      NoRoomNoRecovery(s');
      StuckTimeoutNeverWidens(s, s', step);
    } else {
      StoppedLeavesGap(s, s', chunk, Acknowledged(u.up) + 1);
    }
  }

  lemma StuckTimeoutNeverWidens(s: State, s': State, step: Step)
    requires Enabled(s, step) && step.Pass? && s.phase.Active? && s.phase.u.up.queue != [] && NeverWidens(s)
    requires Acknowledged(s.phase.u.up) + 1 == s.down.last && Plain(s.phase.u.win) && 1 <= s.phase.u.win.cwnd
    requires step.tSend - s.phase.u.up.queue[0].stamp > s.est.rto && step.tClean <= Deadline(s) && 1 <= Beyond(s)
    requires s.phase.u.up.dupAck <= 2
    requires s'.phase == Active(Upstream(Restamped(s.phase.u.up, step.tSend), OnTimeout(s.phase.u.win)))
    requires forall ack: nat :: Ack(ack) in s'.net <==> Ack(ack) in s.net
    requires s'.est == s.est && s'.down == s.down && s'.sent == s.sent && s'.clock == step.tClean
    ensures NeverWidens(s')
  {
    hide Shut, InTime;
    var u := s.phase.u;
    RestampedKeeps(u.up, step.tSend, 0);
    if forall ack: nat :: !Hopeful(s, ack) {
      forall ack: nat
        ensures !Hopeful(s', ack)
      {
        assert !Hopeful(s, ack);
      }
    } else if s.sent == MAX_PACKET_PER_CHUNK {
    } else if Shut(BestWindow(s), Beyond(s)) {
      if InTime(s) {
        ShutAfterTimeout(u.win, Beyond(s));
      }
      CornerIsShut(s', Beyond(s));
    } else if Short(s) {
      var j: nat :| j < Acknowledged(u.up) && (forall ack: nat :: Ack(ack) in s.net ==> ack == j)
                    && BestWindow(s).cwnd + Hands(s, j) <= Beyond(s);
      RestampedKeeps(u.up, step.tSend, j);
      CornerIsShort(s', j);
    } else {
      TimeoutIsTight(s, s', step);
    }
  }

  lemma TimeoutIsTight(s: State, s': State, step: Step)
    requires Enabled(s, step) && step.Pass? && s.phase.Active? && s.phase.u.up.queue != [] && Tight(s)
    requires Acknowledged(s.phase.u.up) + 1 == s.down.last && 1 <= Beyond(s) && s.phase.u.up.dupAck <= 2
    requires step.tSend - s.phase.u.up.queue[0].stamp > s.est.rto && step.tClean <= Deadline(s)
    requires s'.phase == Active(Upstream(Restamped(s.phase.u.up, step.tSend), OnTimeout(s.phase.u.win)))
    requires forall ack: nat :: Ack(ack) in s'.net <==> Ack(ack) in s.net
    requires s'.est == s.est && s'.down == s.down && s'.sent == s.sent && s'.clock == step.tClean
    ensures Tight(s')
  {
    hide CornerOpens, Restarts;
    var u := s.phase.u;
    RestampedKeeps(u.up, step.tSend, 0);
    if CopiesOpen(s') {
      var ack: nat :| Ack(ack) in s'.net && ack + 1 == s.down.last && CornerOpens(s', ack);
      RestampedKeeps(u.up, step.tSend, ack);
      AfterTimeout(s', OnTimeout(u.win), ack, step.tSend);
      TimeoutOpens(s, ack, step);
    }
  }

  lemma TimeoutOpens(s: State, ack: nat, step: Step)
    requires Enabled(s, step) && step.Pass? && s.phase.Active? && s.phase.u.up.queue != []
    requires step.tSend - s.phase.u.up.queue[0].stamp > s.est.rto && step.tClean <= Deadline(s)
    requires Restarts(OnTimeout(s.phase.u.win), Beyond(s), Spare(s.phase.u.up, ack), s.est.rto)
    ensures CornerOpens(s, ack)
  {
    hide Restarts, Shut, Spare;
  }

  lemma LaterIsNoBetter(s: State, s': State)
    requires s.phase.Active? && Later(s, s') && OnlyNewest(s) && !Recoverable(s)
    ensures OnlyNewest(s') && !Recoverable(s')
  {
    hide Fatal;
  }

  lemma StuckStays(s: State, s': State)
    requires s.phase.Active? && Stuck(s) && Later(s, s')
    requires Plain(s.phase.u.win) && 1 <= s.phase.u.win.cwnd && 1 <= Beyond(s) && 0 <= s.est.rto
    requires Sound(s.est) && Timed(s.phase.u.up, s.clock)
    ensures Stuck(s')
  {
    hide Shut, Plain, Recoverable, OnlyNewest;
    LaterIsNoBetter(s, s');
    var u := s.phase.u;
    if forall ack: nat :: !Hopeful(s, ack) {
      forall ack: nat
        ensures !Hopeful(s', ack)
      {
        assert !Hopeful(s, ack);
      }
    } else if s.sent == MAX_PACKET_PER_CHUNK {
    } else if u.up.queue != [] && Acknowledged(u.up) < s.down.last && Shut(BestWindow(s), Beyond(s)) {
      LaterIsShut(s, s');
    } else if u.up.queue != [] && Tight(s) {
      LaterIsTight(s, s');
    } else {
      var j: nat :| j < Acknowledged(u.up) && (forall ack: nat :: Ack(ack) in s.net ==> ack == j)
                    && BestWindow(s).cwnd + Hands(s, j) <= Beyond(s);
      LaterIsShort(s, s', j);
    }
  }

  lemma LaterIsTight(s: State, s': State)
    requires s.phase.Active? && Tight(s) && Later(s, s') && Sound(s.est) && Timed(s.phase.u.up, s.clock)
    ensures Tight(s')
  {
    hide CornerOpens, HeardOpens, Sound, Timed;
    if CopiesOpen(s') {
      var up := s.phase.u.up;
      var ack: nat :|
        && Ack(ack) in s'.net && ack + 1 == s.down.last && Acknowledged(up) <= ack
        && (if ack == Acknowledged(up) then CornerOpens(s', ack)
            else ack - Acknowledged(up) < |up.queue| && HeardOpens(s', ack));
      if ack == Acknowledged(up) {
        CornerWasOpen(s, s', ack);
      } else {
        HeardWasOpen(s, s', ack);
      }
    }
  }

  lemma LaterIsShort(s: State, s': State, j: nat)
    requires s.phase.Active? && Later(s, s') && s.phase.u.up.queue != []
    requires Acknowledged(s.phase.u.up) + 1 == s.down.last && 1 <= s.phase.u.win.cwnd
    requires BestWindow(s).cwnd + Hands(s, j) <= Beyond(s)
    ensures BestWindow(s').cwnd + Hands(s', j) <= Beyond(s')
  {
    hide Fatal;
    assert InTime(s') ==> InTime(s);
  }

  lemma LaterIsShut(s: State, s': State)
    requires s.phase.Active? && Later(s, s') && s.phase.u.up.queue != []
    requires Acknowledged(s.phase.u.up) < s.down.last && Shut(BestWindow(s), Beyond(s))
    requires Plain(s.phase.u.win) && 1 <= Beyond(s)
    ensures Shut(BestWindow(s'), Beyond(s'))
  {
    hide Shut, Plain, Fatal;
    var w, n := s.phase.u.win, Beyond(s);
    if Acknowledged(s.phase.u.up) + 1 == s.down.last {
      assert InTime(s') ==> InTime(s);
      if InTime(s) {
        ShutAfterTimeout(w, n);
      }
      if InTime(s) || s.clock <= Deadline(s) {
        ShutAfterLateAck(w, n);
      }
    }
  }

  /** The third duplicate of a stale acknowledgement stops the sender with a packet missing. */
  lemma StuckFatalPass(s: State, chunk: seq<byte>, step: Step)
    requires |chunk| == BT_CHUNK_SIZE && Enabled(s, step) && step.Pass? && step.inbound.Some?
    requires Inv(s, chunk) && s.down.status == Running && s.phase.Active? && Stuck(s)
    requires Fatal(s.phase.u.up, step.inbound.value)
    ensures var s' := Next(s, chunk, step); s'.down == s.down && !s'.phase.Active? && Gap(s', chunk)
  {
    hide Inv, Slice, NeverWidens, Recoverable, OnAckPacket, Acknowledge, Send, Shape, WindowOk, TimedOut;
    RunningBound(s, chunk);
    UpstreamFacts(s, chunk);
    AckInFlight(s, chunk, step.inbound.value);
    AckKeepsUpstream(s.phase.u, s.est, step.inbound.value, step.tAck, s.sent, s.atTimeout);
    EarlyAckDoesNotFinish(s.phase.u, s.est, step.inbound.value, step.tAck);
    StoppedLeavesGap(s, Next(s, chunk, step), chunk, s.down.last);
  }

  /** What a pass leaves of a cornered sender that stays active: a window no wider than the one that
      the acknowledgement left, or one that has timed out. */
  ghost predicate HandedOver(s: State, s': State, ack: nat, tSend: int)
    requires s.phase.Active? && s.phase.u.up.queue != []
  {
    var u, w := s.phase.u, OnAck(s.phase.u.win, 0);
    && s'.phase.Active? && s'.phase.u.up.queue != []
    && s'.phase.u.up.size == Beyond(s) && Acknowledged(s'.phase.u.up) == Acknowledged(u.up)
    && s'.phase.u.up.lastAck == ack
    && Spare(s'.phase.u.up, ack) == (if Spare(u.up, ack) == 0 then 2 else Spare(u.up, ack) - 1)
    && s.clock <= tSend <= s'.clock && s'.phase.u.up.dupAck <= 2
    && (if tSend > HeadAfter(u.up, ack, s.est.rto) + s.est.rto then
          s'.phase.u.win == OnTimeout(w) && s'.phase.u.up.queue[0].stamp == tSend
        else
          s'.phase.u.win == w && s'.phase.u.up.queue[0].stamp == HeadAfter(u.up, ack, s.est.rto)
          && (w.cwnd <= Beyond(s) || s.sent == MAX_PACKET_PER_CHUNK))
    && s'.est == s.est && s'.down == s.down && s'.sent == s.sent
    && forall a: nat :: Ack(a) in s'.net ==> Ack(a) in s.net
  }

  lemma HandedOverNeverWidens(s: State, s': State, ack: nat, tSend: int)
    requires s.phase.Active? && s.phase.u.up.queue != [] && NeverWidens(s) && Hopeful(s, ack)
    requires Acknowledged(s.phase.u.up) + 1 == s.down.last && ack <= Acknowledged(s.phase.u.up)
    requires Plain(s.phase.u.win) && 1 <= s.phase.u.win.cwnd && 1 <= Beyond(s) && 0 <= s.est.rto
    requires s.phase.u.up.queue[0].stamp <= s.clock && s.phase.u.up.dupAck <= 2 && HandedOver(s, s', ack, tSend)
    ensures NeverWidens(s') && (s'.phase.u.win.cwnd <= Beyond(s) || s.sent == MAX_PACKET_PER_CHUNK)
  {
    hide Shut, OnAck, Fatal;
    var w, n := s.phase.u.win, Beyond(s);
    AckGrows(w);
    if s.sent == MAX_PACKET_PER_CHUNK {
    } else if Shut(BestWindow(s), n) {
      HandedOverIsShut(s, s', ack, tSend);
      CornerIsShut(s', n);
      ShutIsNoRoom(s'.phase.u.win, n);
    } else if Short(s) {
      var j: nat :| j < Acknowledged(s.phase.u.up) && (forall a: nat :: Ack(a) in s.net ==> a == j)
                    && BestWindow(s).cwnd + Hands(s, j) <= n;
      HandedOverIsShort(s, s', ack, tSend);
      CornerIsShort(s', j);
    } else {
      HandedOverIsTight(s, s', ack, tSend);
    }
  }

  lemma HandedOverIsTight(s: State, s': State, ack: nat, tSend: int)
    requires s.phase.Active? && s.phase.u.up.queue != [] && Tight(s) && Hopeful(s, ack)
    requires Acknowledged(s.phase.u.up) + 1 == s.down.last
    requires Plain(s.phase.u.win) && 1 <= s.phase.u.win.cwnd && 1 <= Beyond(s) && 0 <= s.est.rto
    requires s.phase.u.up.queue[0].stamp <= s.clock && s.phase.u.up.dupAck <= 2 && HandedOver(s, s', ack, tSend)
    ensures Tight(s')
  {
    hide CornerOpens, Restarts, OnAck, Plain, Fatal;
    var w := s.phase.u.win;
    if CopiesOpen(s') {
      assert CornerOpens(s', ack);
      if tSend > HeadAfter(s.phase.u.up, ack, s.est.rto) + s.est.rto {
        AfterTimeout(s', Spent(w), ack, tSend);
        SpentOpens(s, ack);
      } else {
        AfterCopy(s, s', ack, tSend);
      }
    }
  }

  lemma SpentOpens(s: State, ack: nat)
    requires s.phase.Active? && s.phase.u.up.queue != []
    requires Restarts(Spent(s.phase.u.win), Beyond(s), Fewer(Spare(s.phase.u.up, ack)), s.est.rto)
    ensures CornerOpens(s, ack)
  {
    hide Restarts, Spent, Spare;
  }

  lemma ShutIsNoRoom(w: Window, n: int)
    requires Shut(w, n)
    ensures w.cwnd <= n
  {
  }

  lemma HandedOverIsShut(s: State, s': State, ack: nat, tSend: int)
    requires s.phase.Active? && s.phase.u.up.queue != [] && Hopeful(s, ack)
    requires Acknowledged(s.phase.u.up) + 1 == s.down.last && Shut(BestWindow(s), Beyond(s))
    requires Plain(s.phase.u.win) && 1 <= Beyond(s) && 0 <= s.est.rto && HandedOver(s, s', ack, tSend)
    ensures Shut(s'.phase.u.win, Beyond(s)) && Plain(s'.phase.u.win)
  {
    hide Shut, OnAck, Fatal, Plain;
    var w, n := s.phase.u.win, Beyond(s);
    if InTime(s) {
      ShutAfterAck(w, n);
      ShutAfterTimeout(OnAck(w, 0), n);
    } else if s.clock <= Deadline(s) {
      ShutAfterLateAck(w, n);
    }
    TimedOutIsPlain(w);
    TimedOutIsPlain(OnAck(w, 0));
  }

  lemma TimedOutIsPlain(w: Window)
    ensures Plain(OnTimeout(w)) && (Plain(w) ==> Plain(OnAck(w, 0)))
  {
  }

  lemma HandedOverIsShort(s: State, s': State, ack: nat, tSend: int)
    requires s.phase.Active? && s.phase.u.up.queue != [] && Hopeful(s, ack) && ack < Acknowledged(s.phase.u.up)
    requires Acknowledged(s.phase.u.up) + 1 == s.down.last && 1 <= s.phase.u.win.cwnd && s.phase.u.up.dupAck <= 2
    requires BestWindow(s).cwnd + Hands(s, ack) <= Beyond(s)
    requires 1 <= Beyond(s) && 0 <= s.est.rto && HandedOver(s, s', ack, tSend)
    ensures 1 <= s'.phase.u.win.cwnd && s'.phase.u.win.cwnd + Spare(s'.phase.u.up, ack) <= Beyond(s)
  {
    hide OnAck;
    AckGrows(s.phase.u.win);
  }

  /** A pass that hands in an acknowledgement which says nothing new. */
  lemma StuckOldAckPass(s: State, chunk: seq<byte>, step: Step)
    requires |chunk| == BT_CHUNK_SIZE && Enabled(s, step) && step.Pass? && step.inbound.Some?
    requires Inv(s, chunk) && s.down.status == Running && s.phase.Active? && Stuck(s)
    requires Hopeful(s, step.inbound.value) && step.inbound.value <= Acknowledged(s.phase.u.up)
    ensures var s' := Next(s, chunk, step);
            s'.down == s.down && if s'.phase.Active? then Stuck(s') else Gap(s', chunk)
  {
    hide Inv, Send, Next, Slice, NeverWidens, Recoverable, Shape, OnAck, Noted, UpstreamOk, Shut;
    var u, ack := s.phase.u, step.inbound.value;
    RunningBound(s, chunk);
    UpstreamFacts(s, chunk);
    AckInFlight(s, chunk, ack);
    OldAckPassIs(s, chunk, step);
    OldUpstreamOk(s, chunk, ack, step.tAck);
    NotedHead(u.up, ack, s.est.rto, step.tAck);
    NotedKeeps(u.up, ack, s.est.rto, step.tAck);
    NotedSpares(u.up, ack, s.est.rto, step.tAck);
    var heard, s' := Upstream(Noted(u.up, ack, s.est.rto, step.tAck), OnAck(u.win, 0)), Next(s, chunk, step);
    SendIs(heard, chunk, step.tSend, s.est.rto, s.sent, s.atTimeout);
    RestampedKeeps(heard.up, step.tSend, ack);
    var sends := step.tSend <= HeadAfter(u.up, ack, s.est.rto) + s.est.rto && Beyond(s) < OnAck(u.win, 0).cwnd
                 && s.sent < MAX_PACKET_PER_CHUNK;
    if sends {
      NeverWidensNeverSends(s, ack);
    } else if s'.phase.Active? {
      HandedOverNeverWidens(s, s', ack, step.tSend);
      NoRoomNoRecovery(s');
    } else {
      StoppedLeavesGap(s, s', chunk, s.down.last);
    }
  }

  /** In time and with room after the acknowledgement, the window was not shut nor the copies too few. */
  lemma NeverWidensNeverSends(s: State, ack: nat)
    requires s.phase.Active? && s.phase.u.up.queue != [] && NeverWidens(s) && Hopeful(s, ack)
    requires Acknowledged(s.phase.u.up) + 1 == s.down.last && s.sent < MAX_PACKET_PER_CHUNK
    requires Plain(s.phase.u.win) && 0 <= s.est.rto && s.phase.u.up.dupAck <= 2 && 1 <= Beyond(s)
    requires s.clock <= HeadAfter(s.phase.u.up, ack, s.est.rto) + s.est.rto
    ensures OnAck(s.phase.u.win, 0).cwnd <= Beyond(s)
  {
    hide Shut, OnAck;
    assert InTime(s);
    AckGrows(s.phase.u.win);
    if Shut(BestWindow(s), Beyond(s)) {
      ShutAfterAck(s.phase.u.win, Beyond(s));
      ShutIsNoRoom(OnAck(s.phase.u.win, 0), Beyond(s));
    } else if !Short(s) && OnAck(s.phase.u.win, 0).cwnd > Beyond(s) {
      RoomOpens(s, ack);
    }
  }

  lemma RoomOpens(s: State, ack: nat)
    requires s.phase.Active? && s.phase.u.up.queue != [] && s.phase.u.up.dupAck <= 2 && 0 <= s.est.rto
    requires Plain(s.phase.u.win) && 1 <= Beyond(s) && OnAck(s.phase.u.win, 0).cwnd > Beyond(s)
    requires s.clock <= HeadAfter(s.phase.u.up, ack, s.est.rto) + s.est.rto
    ensures CornerOpens(s, ack)
  {
    hide Restarts, OnAck;
    AckGrows(s.phase.u.win);
    if Shut(s.phase.u.win, Beyond(s)) {
      ShutAfterAck(s.phase.u.win, Beyond(s));
    }
  }

  /** What a pass leaves that hands in the first acknowledgement before the newest, unless it sends a new
      packet. */
  ghost predicate FirstHandedOver(s: State, s': State, ack: nat, step: Step)
    requires step.Pass? && s.phase.Active? && 1 <= ack - Acknowledged(s.phase.u.up) < |s.phase.u.up.queue|
  {
    var up, k := s.phase.u.up, ack - Acknowledged(s.phase.u.up);
    var w := OnAck(s.phase.u.win, k);
    && s'.down == s.down && s'.sent == s.sent
    && (forall p :: p in s'.net ==> p in s.net || (p.Data? && p.num == s.down.last))
    && (s'.phase.Active? ==>
          && s'.phase.u.up.queue != [] && s'.phase.u.up.size == |up.queue| - k
          && Acknowledged(s'.phase.u.up) == ack && s'.phase.u.up.lastAck == ack && s'.phase.u.up.dupAck == 0
          && s'.est == Infer(s.est, step.tAck - up.queue[k - 1].stamp)
          && s.clock <= step.tAck <= step.tSend <= s'.clock
          && (if step.tSend > up.queue[k].stamp + s'.est.rto then
                s'.phase.u.win == OnTimeout(w) && s'.phase.u.up.queue[0].stamp == step.tSend
              else
                s'.phase.u.win == w && s'.phase.u.up.queue[0].stamp == up.queue[k].stamp))
  }

  lemma FirstIsHandedOver(s: State, chunk: seq<byte>, step: Step)
    requires |chunk| == BT_CHUNK_SIZE && Enabled(s, step) && step.Pass? && step.inbound.Some?
    requires Inv(s, chunk) && s.phase.Active? && step.inbound.value + 1 == s.down.last < MAX_PACKET_PER_CHUNK
    requires 1 <= step.inbound.value - Acknowledged(s.phase.u.up) < |s.phase.u.up.queue|
    requires s.sent < MAX_PACKET_PER_CHUNK ==>
               OnAck(s.phase.u.win, step.inbound.value - Acknowledged(s.phase.u.up)).cwnd <= Beyond(s)
    ensures FirstHandedOver(s, Next(s, chunk, step), step.inbound.value, step)
  {
    hide Inv, Send, Next, Slice, Shape, OnAck, UpstreamOk, Infer, Plain;
    var u, ack := s.phase.u, step.inbound.value;
    UpstreamFacts(s, chunk);
    NewAckPassIs(s, chunk, step);
    HeardUpstream(s, chunk, ack, step.tAck);
    var k := ack - Acknowledged(u.up);
    var heard := Upstream(Cleared(u.up, ack, step.tAck), OnAck(u.win, k));
    var est := Infer(s.est, step.tAck - u.up.queue[k - 1].stamp);
    SendIs(heard, chunk, step.tSend, est.rto, s.sent, s.atTimeout);
    RestampedKeeps(heard.up, step.tSend, ack);
  }

  /** A pass that hands in the acknowledgement before the newest. */
  lemma StuckNewAckPass(s: State, chunk: seq<byte>, step: Step)
    requires |chunk| == BT_CHUNK_SIZE && Enabled(s, step) && step.Pass? && step.inbound.Some?
    requires Inv(s, chunk) && s.down.status == Running && s.phase.Active? && Stuck(s)
    requires Hopeful(s, step.inbound.value) && Acknowledged(s.phase.u.up) < step.inbound.value
    ensures var s' := Next(s, chunk, step);
            s'.down == s.down && if s'.phase.Active? then Stuck(s') else Gap(s', chunk)
  {
    hide Inv, Next, Slice, NeverWidens, Recoverable, Shape, OnAck, UpstreamOk, Infer, Gap;
    var u, ack, s' := s.phase.u, step.inbound.value, Next(s, chunk, step);
    RunningBound(s, chunk);
    UpstreamFacts(s, chunk);
    AckInFlight(s, chunk, ack);
    assert ack + 1 == s.down.last by { assert Ack(ack) in s.net; }
    if s.sent < MAX_PACKET_PER_CHUNK {
      FirstLeavesNoRoom(s, ack);
    }
    FirstIsHandedOver(s, chunk, step);
    if s'.phase.Active? {
      NoRoomNoRecovery(s');
      EstimateIsSound(s, chunk);
      FirstTimeoutIsNatural(s, chunk, ack, step.tAck);
      HeardNeverWidens(s, s', ack, step);
    } else {
      StoppedLeavesGap(s, s', chunk, s.down.last);
    }
  }

  lemma FirstLeavesNoRoom(s: State, ack: nat)
    requires s.phase.Active? && s.phase.u.up.queue != [] && NeverWidens(s) && Hopeful(s, ack)
    requires 1 <= ack - Acknowledged(s.phase.u.up) < |s.phase.u.up.queue|
    requires 0 <= Acknowledged(s.phase.u.up) < ack && ack + 1 == s.down.last && s.sent < MAX_PACKET_PER_CHUNK
    requires 1 <= Beyond(s)
    ensures OnAck(s.phase.u.win, ack - Acknowledged(s.phase.u.up)).cwnd <= Beyond(s)
  {
    hide Shut, OnAck;
    var w := OnAck(s.phase.u.win, ack - Acknowledged(s.phase.u.up));
    if Shut(w, Beyond(s)) {
      ShutIsNoRoom(w, Beyond(s));
    } else {
      assert Tight(s) && !HeardOpens(s, ack);
    }
  }

  /** What the first acknowledgement of the newest but one leaves, unless a new packet was sent. */
  lemma HeardNeverWidens(s: State, s': State, ack: nat, step: Step)
    requires s.phase.Active? && s'.phase.Active? && s'.phase.u.up.queue != [] && 1 <= Beyond(s)
    requires 1 <= ack - Acknowledged(s.phase.u.up) < |s.phase.u.up.queue| && 0 <= Acknowledged(s.phase.u.up)
    requires ack + 1 == s.down.last && NeverWidens(s) && Hopeful(s, ack)
    requires Sound(s.est) && Timed(s.phase.u.up, s.clock) && Plain(s.phase.u.win) && 1 <= s.phase.u.win.cwnd
    requires step.Pass? && FirstHandedOver(s, s', ack, step) && 0 <= s'.est.rto
    requires s.sent < MAX_PACKET_PER_CHUNK ==> OnAck(s.phase.u.win, ack - Acknowledged(s.phase.u.up)).cwnd <= Beyond(s)
    ensures NeverWidens(s')
  {
    hide Shut, OnAck, Plain, Infer, CornerOpens, HeardOpens, Sound, Timed;
    if s.sent != MAX_PACKET_PER_CHUNK {
      var w := OnAck(s.phase.u.win, ack - Acknowledged(s.phase.u.up));
      if Shut(w, Beyond(s)) {
        AckLeavesPlain(s.phase.u.win, ack - Acknowledged(s.phase.u.up));
        ShutAfterTimeout(w, Beyond(s));
        TimedOutIsPlain(w);
        CornerIsShut(s', Beyond(s));
      } else if CopiesOpen(s') {
        assert CornerOpens(s', ack);
        AfterFirstCopy(s, s', ack, step.tAck, step.tSend);
      }
    }
  }

  lemma StuckPass(s: State, chunk: seq<byte>, step: Step)
    requires |chunk| == BT_CHUNK_SIZE && Enabled(s, step) && step.Pass?
    requires Inv(s, chunk) && s.down.status == Running && s.phase.Active? && Stuck(s)
    ensures var s' := Next(s, chunk, step);
            s'.down == s.down && if s'.phase.Active? then Stuck(s') else Gap(s', chunk)
  {
    hide Inv, Next, Stuck, Fatal, Gap, Acknowledged;
    if step.inbound.None? {
      StuckQuietPass(s, chunk, step);
    } else if Fatal(s.phase.u.up, step.inbound.value) {
      StuckFatalPass(s, chunk, step);
    } else if step.inbound.value <= Acknowledged(s.phase.u.up) {
      StuckOldAckPass(s, chunk, step);
    } else {
      StuckNewAckPass(s, chunk, step);
    }
  }

  // -------------------------------------------------------------- whatever follows

  lemma GapStays(s: State, s': State, chunk: seq<byte>)
    requires |chunk| == BT_CHUNK_SIZE && Gap(s, chunk) && s'.down.last == s.down.last
    requires forall p :: p in s'.net && p.Data? ==> p in s.net
    ensures Gap(s', chunk)
  {
    hide Slice;
    var k :| s.down.last < k <= MAX_PACKET_PER_CHUNK && Data(k, Slice(chunk, k)) !in s.net;
    assert Data(k, Slice(chunk, k)) !in s'.net;
  }

  /** A step that neither sends nor delivers. */
  lemma IdleStays(s: State, chunk: seq<byte>, step: Step)
    requires |chunk| == BT_CHUNK_SIZE && Enabled(s, step) && !step.Sample? && !step.Deliver? && Inv(s, chunk)
    requires step.Pass? ==> !s.phase.Active?
    requires s.down.status == Running && if s.phase.Active? then Stuck(s) else Gap(s, chunk)
    ensures var s' := Next(s, chunk, step);
            && s'.phase == s.phase && s'.down.status != Complete
            && (if s.phase.Active? then Stuck(s') else Gap(s', chunk))
  {
    hide Inv, Stuck, Gap;
    IdleIsLater(s, chunk, step);
    if s.phase.Active? {
      UpstreamFacts(s, chunk);
      EstimateIsSound(s, chunk);
      StuckStays(s, Next(s, chunk, step));
    } else {
      GapStays(s, Next(s, chunk, step), chunk);
    }
  }

  lemma IdleIsLater(s: State, chunk: seq<byte>, step: Step)
    requires |chunk| == BT_CHUNK_SIZE && Enabled(s, step) && !step.Sample? && !step.Deliver?
    requires step.Pass? ==> !s.phase.Active?
    ensures Later(s, Next(s, chunk, step))
    ensures s.down.status == Running ==> Next(s, chunk, step).down.status != Complete
  {
  }

  /** DATA at a receiver whose sender is lost: the newest packet is appended again, and any other
      leaves the gap. */
  lemma DoomedDelivery(s: State, chunk: seq<byte>, step: Step)
    requires |chunk| == BT_CHUNK_SIZE && Enabled(s, step) && step.Deliver?
    requires Inv(s, chunk) && s.down.status == Running
    requires if s.phase.Active? then OnlyNewest(s) else Gap(s, chunk)
    ensures var s' := Next(s, chunk, step);
            s'.down.status != Complete && (HasRepeat(s'.down.log) || (!s'.phase.Active? && Gap(s', chunk)))
  {
    hide PhaseOk, Slice, TimesOk, OnData, Faithful, Fatal;
    assert PacketOk(Data(step.num, step.payload), chunk, s.sent, s.down.last);
    StepKeepsInv(s, chunk, step);
    var s' := Next(s, chunk, step);
    DeliveredLog(s.down, chunk, step.num);
    if HasRepeat(s'.down.log) {
      FaithfulMeans(s'.down, chunk);
    } else {
      var k :| s.down.last < k <= MAX_PACKET_PER_CHUNK && Data(k, Slice(chunk, k)) !in s.net;
      assert Data(k, Slice(chunk, k)) !in s'.net;
      if s'.down.status == Complete {
        CompleteIsAll(s'.down, chunk);
      }
    }
  }

  lemma CompleteIsAll(d: Downstream, chunk: seq<byte>)
    requires |chunk| == BT_CHUNK_SIZE && Faithful(d, chunk) && d.status == Complete
    ensures d.last == MAX_PACKET_PER_CHUNK
  {
    hide Slices;
  }

  /** The newest packet again is a repeat; the last number moves to the next one only. */
  lemma DeliveredLog(d: Downstream, chunk: seq<byte>, num: nat)
    requires |chunk| == BT_CHUNK_SIZE && Faithful(d, chunk) && d.status == Running && 1 <= num <= MAX_PACKET_PER_CHUNK
    ensures var d' := OnData(d, num, Slice(chunk, num)).d;
            && (num == d.last ==> HasRepeat(d'.log))
            && d'.last == if num == d.last + 1 then num else d.last
  {
    hide Slice, Slices, HasRepeat, Steady;
    if num == d.last {
      AppendRepeats(d.log, num);
    }
  }

  lemma StepStaysDoomed(s: State, chunk: seq<byte>, step: Step)
    requires |chunk| == BT_CHUNK_SIZE && Doomed(s, chunk) && Enabled(s, step) && !step.Sample?
    ensures Doomed(Next(s, chunk, step), chunk)
  {
    hide Inv, HasRepeat, Recoverable, NeverWidens, Gap, Next, OnlyNewest;
    StepKeepsInv(s, chunk, step);
    var s' := Next(s, chunk, step);
    if HasRepeat(s.down.log) {
      RepeatPersists(s, chunk, step);
      RepeatIsNotComplete(s', chunk);
    } else if s.down.status != Running {
      DoneStaysDone(s, chunk, step);
    } else if step.Deliver? {
      DoomedDelivery(s, chunk, step);
    } else if step.Pass? && s.phase.Active? {
      StuckPass(s, chunk, step);
    } else {
      IdleStays(s, chunk, step);
    }
  }

  lemma RepeatIsNotComplete(s: State, chunk: seq<byte>)
    requires |chunk| == BT_CHUNK_SIZE && Inv(s, chunk) && HasRepeat(s.down.log)
    ensures s.down.status != Complete
  {
    FaithfulMeans(s.down, chunk);
  }

  lemma {:induction false} DoomedNeverCompletes(s: State, chunk: seq<byte>, steps: seq<Step>)
    requires |chunk| == BT_CHUNK_SIZE && Doomed(s, chunk) && Lone(steps) && Possible(s, chunk, steps)
    ensures Run(s, chunk, steps).down.status != Complete
    decreases |steps|
  {
    if steps != [] {
      hide Doomed, Next, Enabled;
      StepStaysDoomed(s, chunk, steps[0]);
      DoomedNeverCompletes(Next(s, chunk, steps[0]), chunk, steps[1..]);
    } else {
      hide Inv, HasRepeat, Stuck, Gap;
    }
  }

  // ------------------------------------------------------------------ the condition

  ghost predicate Evident(s: State)
    requires s.phase.Active?
  {
    || (exists ack: nat :: Hopeful(s, ack) && Max(ack, Acknowledged(s.phase.u.up)) + 1 != s.down.last)
    || (exists p :: p in s.net && p.Data? && p.num != s.down.last)
    || Recoverable(s)
    || (Widens(s) && Enough(s))
    || CopiesOpen(s)
  }

  lemma DataInFlight(s: State, chunk: seq<byte>, p: Packet)
    requires |chunk| == BT_CHUNK_SIZE && Inv(s, chunk) && p in s.net && p.Data?
    ensures 1 <= p.num <= MAX_PACKET_PER_CHUNK && p == Data(p.num, Slice(chunk, p.num))
  {
    hide Faithful, PhaseOk, TimesOk;
    assert PacketOk(p, chunk, s.sent, s.down.last);
  }

  lemma EvidentCanComplete(s: State, chunk: seq<byte>)
    requires |chunk| == BT_CHUNK_SIZE && Live(s, chunk) && Evident(s)
    ensures CanComplete(s, chunk)
  {
    hide Next, Enabled, Inv, Recoverable, CanComplete, Fatal, Enough, Shut, CopiesOpen;
    if ack: nat :| Hopeful(s, ack) && Max(ack, Acknowledged(s.phase.u.up)) + 1 != s.down.last {
      HeardCanComplete(s, chunk, ack);
    } else if p :| p in s.net && p.Data? && p.num != s.down.last {
      DataInFlight(s, chunk, p);
      RetransmittedCanComplete(s, chunk, p.num, false);
    } else if Recoverable(s) {
      RecoverableCanComplete(s, chunk);
    } else if Widens(s) && Enough(s) {
      WidenedCanComplete(s, chunk);
    } else {
      AllAreOlder(s, chunk);
      CopiesOpenCanComplete(s, chunk);
    }
  }

  lemma NotEvidentIsStuck(s: State, chunk: seq<byte>)
    requires |chunk| == BT_CHUNK_SIZE && Live(s, chunk) && !Evident(s)
    ensures Stuck(s)
  {
    hide Inv, Recoverable, Shut, Fatal, BestWindow;
    UpstreamFacts(s, chunk);
    forall p | p in s.net
      ensures if p.Data? then p.num == s.down.last
              else Fatal(s.phase.u.up, p.ack) || Max(p.ack, Acknowledged(s.phase.u.up)) + 1 == s.down.last
    {
      match p
      case Data(_, _) =>
      case Ack(ack) => assert Fatal(s.phase.u.up, ack) || Hopeful(s, ack);
    }
    if ack: nat :| Hopeful(s, ack) {
      AckInFlight(s, chunk, ack);
      if j: nat :| Ack(j) in s.net && j + 1 != s.down.last {
        if Widens(s) {
          NotEnoughIsShort(s, chunk);
        }
      }
    }
  }

  lemma NotEnoughIsShort(s: State, chunk: seq<byte>)
    requires |chunk| == BT_CHUNK_SIZE && Live(s, chunk) && Widens(s) && !Enough(s)
    requires forall ack: nat :: Hopeful(s, ack) ==> Max(ack, Acknowledged(s.phase.u.up)) + 1 == s.down.last
    requires exists ack: nat :: Ack(ack) in s.net && ack + 1 != s.down.last
    ensures Acknowledged(s.phase.u.up) + 1 == s.down.last && Short(s)
  {
    hide Inv, Shut, BestWindow, InTime;
    UpstreamFacts(s, chunk);
    var j: nat :| Ack(j) in s.net && j + 1 != s.down.last;
    var ack: nat :| Hopeful(s, ack);
    assert ack == j;
    if Hands(s, j) < 1 {
      LateWindowIsOne(s, j);
    }
    assert BestWindow(s).cwnd + Hands(s, j) <= Beyond(s);
  }

  lemma LateWindowIsOne(s: State, j: nat)
    requires s.phase.Active? && s.phase.u.up.queue != [] && Acknowledged(s.phase.u.up) + 1 == s.down.last
    requires Hopeful(s, j) && j < Acknowledged(s.phase.u.up) && s.phase.u.up.dupAck <= 2 && Hands(s, j) < 1
    ensures BestWindow(s).cwnd == 1 && Hands(s, j) == 0
  {
    hide InTime;
  }

  /** Exactly when a live transfer, taken alone, can still deliver its chunk: an acknowledgement is in
      flight that neither stops the sender nor leaves the receiver's newest packet as its oldest; or
      DATA other than the newest packet is; or the oldest outstanding packet is not the receiver's
      newest and times out before the sender gives up; or the window has room for a new packet before
      it gives up; or only packet 354 is missing and the pass that gives up can send it first; or
      acknowledgements that say nothing new are in flight and widen the window, out of the linear-phase
      counter, before they have to time out the newest packet or stop the sender. What fails is a
      retransmission of the newest packet, which is appended a second time, and one that comes too late
      to be answered. */
  lemma CompletableIff(s: State, chunk: seq<byte>)
    requires |chunk| == BT_CHUNK_SIZE && Live(s, chunk)
    ensures CanComplete(s, chunk) <==> Evident(s)
  {
    hide Next, Enabled, CanComplete, Evident;
    if Evident(s) {
      EvidentCanComplete(s, chunk);
    } else {
      NotEvidentIsStuck(s, chunk);
      assert Doomed(s, chunk);
      assert !CanComplete(s, chunk) by { DoomedCannot(s, chunk); }
    }
  }

  /** With nothing in flight only the sender's own moves count. */
  lemma SilentIsDecided(s: State)
    requires s.phase.Active? && s.net == multiset{}
    ensures Evident(s) <==> Recoverable(s)
  {
    hide Recoverable;
  }

  lemma DoomedCannot(s: State, chunk: seq<byte>)
    requires |chunk| == BT_CHUNK_SIZE && Doomed(s, chunk)
    ensures !CanComplete(s, chunk)
  {
    hide Doomed, Next, Enabled;
    forall steps | Lone(steps) && Possible(s, chunk, steps)
      ensures Run(s, chunk, steps).down.status != Complete
    {
      DoomedNeverCompletes(s, chunk, steps);
    }
  }

  // ----------------------------------------------------------------- in slow start

  /** A new packet fits into the window once the acknowledgements of all packets before the newest have
      been heard, and some acknowledgement that does not stop the sender can be handed in before the
      newest times out. */
  ghost predicate HasRoomOnceHeard(s: State)
    requires s.phase.Active?
  {
    var up := s.phase.u.up;
    && up.queue != [] && s.sent < MAX_PACKET_PER_CHUNK && s.sent + 1 < 2 * s.down.last
    && exists ack: nat ::
         Hopeful(s, ack) && (Acknowledged(up) + 1 < s.down.last || s.clock <= HeadAfter(up, ack, s.est.rto) + s.est.rto)
  }

  /** A window in slow start, or one that has fallen back from it, is never opened by acknowledgements
      of no packets. */
  lemma SlowStartIsShut(w: Window, n: int)
    requires w.policy == SlowStart && Plain(w) && 1 <= n
    ensures Shut(w, n) <==> w.cwnd <= n
    ensures Shut(OnTimeout(w), n) && OnAck(w, 0) == w
  {
    ShutWithoutCounter(w, n);
    ShutWithoutCounter(OnTimeout(w), n);
  }

  lemma SlowStartHears(s: State, chunk: seq<byte>)
    requires |chunk| == BT_CHUNK_SIZE && Live(s, chunk) && s.phase.u.win.policy == SlowStart
    ensures s.phase.u.win.cwnd == 1 + Acknowledged(s.phase.u.up)
    ensures var w, acked := s.phase.u.win, Acknowledged(s.phase.u.up);
            acked + 1 < s.down.last ==>
              var w1 := OnAck(w, s.down.last - 1 - acked);
              w1.policy == SlowStart && Plain(w1) && w1.cwnd == s.down.last
  {
    hide Faithful, PacketOk;
  }

  lemma RoomIsEvident(s: State, chunk: seq<byte>)
    requires |chunk| == BT_CHUNK_SIZE && Live(s, chunk) && s.phase.u.win.policy == SlowStart && HasRoomOnceHeard(s)
    ensures Evident(s)
  {
    hide Inv, Shut, OnAck, Fatal, Recoverable, Infer, HeadAfter, Restarts;
    UpstreamFacts(s, chunk);
    SlowStartHears(s, chunk);
    var up, n := s.phase.u.up, Beyond(s);
    SlowStartIsShut(s.phase.u.win, n);
    var ack: nat :| Hopeful(s, ack) &&
      (Acknowledged(up) + 1 < s.down.last || s.clock <= HeadAfter(up, ack, s.est.rto) + s.est.rto);
    AckInFlight(s, chunk, ack);
    if Max(ack, Acknowledged(up)) + 1 == s.down.last {
      if Acknowledged(up) + 1 < s.down.last {
        SlowStartIsShut(OnAck(s.phase.u.win, s.down.last - 1 - Acknowledged(up)), n);
        assert HeardOpens(s, ack);
      } else if ack == Acknowledged(up) {
        RoomOpens(s, ack);
      } else {
        assert s.clock <= up.queue[0].stamp + s.est.rto by { HeadIsNoLater(up, ack, s.est.rto); }
        assert AtOnce(s, ack) && InTime(s);
      }
    }
  }

  lemma HeadIsNoLater(u: Upload, ack: nat, rto: int)
    requires u.queue != [] && 0 <= rto
    ensures HeadAfter(u, ack, rto) <= u.queue[0].stamp
  {
  }

  lemma WidenedIsRoom(s: State, chunk: seq<byte>)
    requires |chunk| == BT_CHUNK_SIZE && Live(s, chunk) && s.phase.u.win.policy == SlowStart
    requires !Recoverable(s) && Widens(s)
    ensures HasRoomOnceHeard(s)
  {
    hide Inv, Shut, OnAck, CanRetransmit, CanSendLast, Fatal;
    UpstreamFacts(s, chunk);
    SlowStartHears(s, chunk);
    var up, w, n := s.phase.u.up, s.phase.u.win, Beyond(s);
    SlowStartIsShut(w, n);
    if Acknowledged(up) + 1 < s.down.last {
      SlowStartIsShut(OnAck(w, s.down.last - 1 - Acknowledged(up)), n);
    }
  }

  lemma CopiesAreRoom(s: State, chunk: seq<byte>)
    requires |chunk| == BT_CHUNK_SIZE && Live(s, chunk) && s.phase.u.win.policy == SlowStart && CopiesOpen(s)
    ensures HasRoomOnceHeard(s)
  {
    hide Inv, Shut, OnAck, Infer, Restarts;
    UpstreamFacts(s, chunk);
    SlowStartHears(s, chunk);
    var up, w, n := s.phase.u.up, s.phase.u.win, Beyond(s);
    SlowStartIsShut(w, n);
    var ack: nat :|
      && Ack(ack) in s.net && ack + 1 == s.down.last && Acknowledged(up) <= ack
      && (if ack == Acknowledged(up) then CornerOpens(s, ack)
          else ack - Acknowledged(up) < |up.queue| && HeardOpens(s, ack));
    assert Hopeful(s, ack);
    if ack == Acknowledged(up) {
      if Restarts(OnTimeout(w), n, Spare(up, ack), s.est.rto) {
        RestartsNeeds(OnTimeout(w), n, Spare(up, ack), s.est.rto);
      } else if Restarts(Spent(w), n, Fewer(Spare(up, ack)), s.est.rto) {
        RestartsNeeds(Spent(w), n, Fewer(Spare(up, ack)), s.est.rto);
      }
    } else {
      SlowStartIsShut(OnAck(w, s.down.last - 1 - Acknowledged(up)), n);
    }
  }

  /** In slow start acknowledgements of no packets open nothing, and the condition comes down to room in
      the window for one packet more. */
  lemma SlowStartIff(s: State, chunk: seq<byte>)
    requires |chunk| == BT_CHUNK_SIZE && Live(s, chunk) && s.phase.u.win.policy == SlowStart
    ensures CanComplete(s, chunk) <==>
            || (exists ack: nat :: Hopeful(s, ack) && Max(ack, Acknowledged(s.phase.u.up)) + 1 != s.down.last)
            || (exists p :: p in s.net && p.Data? && p.num != s.down.last)
            || Recoverable(s)
            || HasRoomOnceHeard(s)
  {
    hide CanComplete, Inv, Recoverable, Widens, Enough, CopiesOpen, HasRoomOnceHeard, Hopeful;
    CompletableIff(s, chunk);
    if HasRoomOnceHeard(s) {
      RoomIsEvident(s, chunk);
    }
    if !Recoverable(s) {
      if Widens(s) {
        WidenedIsRoom(s, chunk);
      }
      if CopiesOpen(s) {
        CopiesAreRoom(s, chunk);
      }
    }
  }
}
