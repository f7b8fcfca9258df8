/**
  The same question for runs in which the receiver looks in time: its main loop comes round every few
  milliseconds, so that DATA which arrives later than four of its timeouts after the last finds the
  download gone.
 */
module TransferPatience {
  import opened Wrappers
  import opened Common
  import opened RoundTrip
  import opened CongestionControl
  import opened SentQueue
  import opened Sender
  import opened Receiver
  import opened Transfer
  import opened TransferRuns
  import opened TransferLiveness
  import opened TransferWindow
  import opened TransferCopies
  import opened TransferVerdict

  /** The last moment at which DATA finds a running download that looks in time. */
  ghost function Patience(s: State): int
  {
    s.downTime + ABORT_COEFF * s.downEst.rto
  }

  ghost predicate Patient(s: State, chunk: seq<byte>, steps: seq<Step>)
    requires |chunk| == BT_CHUNK_SIZE
    decreases |steps|
  {
    steps == [] ||
    ((steps[0].Deliver? && s.down.status == Running ==> steps[0].now <= Patience(s))
     && Patient(Next(s, chunk, steps[0]), chunk, steps[1..]))
  }

  ghost predicate CanCompleteInTime(s: State, chunk: seq<byte>)
    requires |chunk| == BT_CHUNK_SIZE
  {
    exists steps ::
      && Lone(steps) && Possible(s, chunk, steps) && Patient(s, chunk, steps)
      && Run(s, chunk, steps).down.status == Complete
  }

  lemma InTimeAlready(s: State, chunk: seq<byte>)
    requires |chunk| == BT_CHUNK_SIZE && s.down.status == Complete
    ensures CanCompleteInTime(s, chunk)
  {
    assert Lone([]) && Possible(s, chunk, []) && Patient(s, chunk, []) && Run(s, chunk, []).down.status == Complete;
  }

  lemma InTimeAfter(s: State, chunk: seq<byte>, step: Step)
    requires |chunk| == BT_CHUNK_SIZE && Enabled(s, step) && !step.Sample?
    requires CanCompleteInTime(Next(s, chunk, step), chunk)
    requires step.Deliver? && s.down.status == Running ==> step.now <= Patience(s)
    ensures CanCompleteInTime(s, chunk)
  {
    hide Enabled, Next, Patience;
    var s' := Next(s, chunk, step);
    var steps :|
      && Lone(steps) && Possible(s', chunk, steps) && Patient(s', chunk, steps)
      && Run(s', chunk, steps).down.status == Complete;
    Prepend(s, chunk, step, steps);
    assert ([step] + steps)[1..] == steps;
    assert Lone([step] + steps);
  }

  // ------------------------------------------------------------ runs with looks

  /** The run with a look for a dead peer right before every delivery. */
  function WithLooks(steps: seq<Step>): seq<Step>
  {
    if steps == [] then []
    else (if steps[0].Deliver? then [Look(steps[0].now)] else []) + [steps[0]] + WithLooks(steps[1..])
  }

  lemma LookBefore(s: State, chunk: seq<byte>, step: Step)
    requires |chunk| == BT_CHUNK_SIZE && step.Deliver?
    ensures var looked := Next(s, chunk, Look(step.now));
            if s.down.status == Running && step.now > Patience(s) then looked.down.status == Abandoned
            else Next(looked, chunk, step) == Next(s, chunk, step)
                 && (Enabled(s, step) <==> Enabled(s, Look(step.now)) && Enabled(looked, step))
  {
    hide OnData;
    var looked := Next(s, chunk, Look(step.now));
    if !(s.down.status == Running && step.now > Patience(s)) {
      assert looked == s.(clock := step.now);
    }
  }

  lemma LooksOf(steps: seq<Step>)
    requires steps != []
    ensures WithLooks(steps) ==
            if steps[0].Deliver? then [Look(steps[0].now), steps[0]] + WithLooks(steps[1..])
            else [steps[0]] + WithLooks(steps[1..])
  {
  }

  lemma RunOfTwo(s: State, chunk: seq<byte>, a: Step, b: Step, rest: seq<Step>)
    requires |chunk| == BT_CHUNK_SIZE
    ensures Run(s, chunk, [a, b] + rest) == Run(Next(Next(s, chunk, a), chunk, b), chunk, rest)
    ensures Possible(s, chunk, [a, b] + rest) <==>
            && Enabled(s, a) && Enabled(Next(s, chunk, a), b)
            && Possible(Next(Next(s, chunk, a), chunk, b), chunk, rest)
  {
    hide Next, Enabled;
    assert ([a, b] + rest)[1..] == [b] + rest;
    assert ([b] + rest)[1..] == rest;
  }

  /** Looking in time is what it says: a run completes the download in time exactly when it still
      completes it with a look before every delivery. */
  lemma {:induction false} PatientMeansLooking(s: State, chunk: seq<byte>, steps: seq<Step>)
    requires |chunk| == BT_CHUNK_SIZE
    ensures (&& Possible(s, chunk, steps) && Patient(s, chunk, steps)
             && Run(s, chunk, steps).down.status == Complete) <==>
            (Possible(s, chunk, WithLooks(steps)) && Run(s, chunk, WithLooks(steps)).down.status == Complete)
    decreases |steps|
  {
    hide Next, Enabled, Patience;
    if steps != [] {
      var step, rest := steps[0], WithLooks(steps[1..]);
      PatientMeansLooking(Next(s, chunk, step), chunk, steps[1..]);
      LooksOf(steps);
      if step.Deliver? {
        LookBefore(s, chunk, step);
        var looked := Next(s, chunk, Look(step.now));
        RunOfTwo(s, chunk, Look(step.now), step, rest);
        if s.down.status == Running && step.now > Patience(s) {
          EndedForGood(looked, chunk, [step] + rest);
          assert Run(looked, chunk, [step] + rest) == Run(Next(looked, chunk, step), chunk, rest) by {
            assert ([step] + rest)[1..] == rest;
          }
        }
      } else {
        assert ([step] + rest)[1..] == rest;
      }
    }
  }

  // ------------------------------------------------------------ what can still finish

  /** Duplicates of the newest acknowledgement bring the next packet without waiting for a timeout. */
  lemma HandNewest(s: State, chunk: seq<byte>) returns (s': State)
    requires |chunk| == BT_CHUNK_SIZE && Live(s, chunk) && Ack(s.down.last) in s.net
    requires Acknowledged(s.phase.u.up) == s.down.last
    ensures Live(s', chunk) && (CanCompleteInTime(s', chunk) ==> CanCompleteInTime(s, chunk))
    ensures s'.down == s.down && s'.clock == s.clock && s'.downEst == s.downEst && Patience(s') == Patience(s)
    ensures var up := s.phase.u.up;
            || Data(s.down.last + 1, Slice(chunk, s.down.last + 1)) in s'.net
            || (&& Ack(s.down.last) in s'.net && Acknowledged(s'.phase.u.up) == s.down.last
                && up.queue != [] && s'.phase.u.up.queue != []
                && s.clock <= HeadAfter(up, s.down.last, s.est.rto) + s.est.rto
                && s'.phase.u.up.queue[0].stamp == HeadAfter(up, s.down.last, s.est.rto)
                && s'.est == s.est
                && (Spare(up, s.down.last) > 0 ==> Spare(s'.phase.u.up, s.down.last) == Spare(up, s.down.last) - 1))
  {
    hide Inv, CanCompleteInTime, Noted, OnAck, Slice, Send, PassOf, Shape, UpstreamOk;
    var ack, u := s.down.last, s.phase.u;
    LiveBound(s, chunk);
    UpstreamFacts(s, chunk);
    AckInFlight(s, chunk, ack);
    var copy, step := Duplicate(Ack(ack)), Pass(Some(ack), s.clock, s.clock, s.clock);
    var s1 := Next(s, chunk, copy);
    StepKeepsInv(s, chunk, copy);
    s' := Next(s1, chunk, step);
    OldAckPassIs(s1, chunk, step);
    OldUpstreamOk(s1, chunk, ack, s.clock);
    NotedHead(u.up, ack, s.est.rto, s.clock);
    NotedKeeps(u.up, ack, s.est.rto, s.clock);
    NotedSpares(u.up, ack, s.est.rto, s.clock);
    var heard := Upstream(Noted(u.up, ack, s.est.rto, s.clock), OnAck(u.win, 0));
    SendIs(heard, chunk, s.clock, s.est.rto, s.sent, s.atTimeout);
    if s.clock <= heard.up.queue[0].stamp + s.est.rto {
      SendAppends(heard, chunk, s.clock, s.est.rto, s.sent, s.atTimeout);
    }
    StepKeepsInv(s1, chunk, step);
    if CanCompleteInTime(s', chunk) {
      InTimeAfter(s1, chunk, step);
      InTimeAfter(s, chunk, copy);
    }
  }

  /** Without a timeout a send step leaves the oldest packet and the duplicates alone. */
  lemma SendAppends(u: Upstream, chunk: seq<byte>, now: int, rto: int, sent: nat, atTimeout: nat)
    requires |chunk| == BT_CHUNK_SIZE && UpstreamOk(u, sent, atTimeout) && u.up.queue != []
    requires now - u.up.queue[0].stamp <= rto
    ensures var up := Send(u, chunk, now, rto).u.up;
            && up.queue != [] && up.queue[0] == u.up.queue[0] && Acknowledged(up) == Acknowledged(u.up)
            && up.lastAck == u.up.lastAck && up.dupAck == u.up.dupAck
  {
    hide WindowOk, Slice;
  }

  lemma SpareIsNatural(s: State, chunk: seq<byte>)
    requires |chunk| == BT_CHUNK_SIZE && Inv(s, chunk) && s.phase.Active?
    ensures 0 <= Spare(s.phase.u.up, s.down.last) <= 3
  {
    hide Faithful, PacketOk;
    UpstreamFacts(s, chunk);
  }

  /** As soon as the clock is past the oldest stamp, the third duplicate makes it time out. */
  lemma {:induction false} DuplicatesBringNext(s: State, chunk: seq<byte>)
    requires |chunk| == BT_CHUNK_SIZE && Live(s, chunk) && Ack(s.down.last) in s.net && 1 <= s.downEst.rto
    requires Acknowledged(s.phase.u.up) == s.down.last && s.phase.u.up.queue != []
    requires s.phase.u.up.queue[0].stamp < s.clock <= Patience(s)
    ensures CanCompleteInTime(s, chunk)
    decreases MAX_PACKET_PER_CHUNK - s.down.last, 1, Spare(s.phase.u.up, s.down.last)
  {
    hide Inv, CanCompleteInTime, Next, Patience;
    LiveBound(s, chunk);
    SpareIsNatural(s, chunk);
    UpstreamFacts(s, chunk);
    var s' := HandNewest(s, chunk);
    if Data(s.down.last + 1, Slice(chunk, s.down.last + 1)) in s'.net {
      NextInTime(s', chunk);
    } else {
      SpareIsNatural(s', chunk);
      DuplicatesBringNext(s', chunk);
    }
  }

  /** The next packet in order is in flight, and the receiver still waits. */
  lemma {:induction false} NextInTime(s: State, chunk: seq<byte>)
    requires |chunk| == BT_CHUNK_SIZE && Inv(s, chunk) && s.down.status == Running && |s.down.log| == s.down.last
    requires s.down.last < MAX_PACKET_PER_CHUNK && Data(s.down.last + 1, Slice(chunk, s.down.last + 1)) in s.net
    requires s.phase.Active? || s.down.last == MAX_PACKET_PER_CHUNK - 1
    requires s.clock <= Patience(s) && 1 <= s.downEst.rto
    ensures CanCompleteInTime(s, chunk)
    decreases MAX_PACKET_PER_CHUNK - s.down.last, 0, 0
  {
    hide Inv, CanCompleteInTime, Next, Enabled;
    var deliver := Deliver(s.down.last + 1, Slice(chunk, s.down.last + 1), s.clock);
    AcceptNext(s, chunk);
    DeliveryTime(s, chunk, deliver);
    var s' := Next(s, chunk, deliver);
    if s'.down.status == Complete {
      InTimeAlready(s', chunk);
    } else {
      NewestInTime(s', chunk);
    }
    InTimeAfter(s, chunk, deliver);
  }

  lemma DeliveryTime(s: State, chunk: seq<byte>, step: Step)
    requires |chunk| == BT_CHUNK_SIZE && step.Deliver? && s.down.status == Running
    ensures var s' := Next(s, chunk, step);
            && s'.downTime == step.now == s'.clock && s'.downEst == s.downEst && s'.est == s.est
            && Patience(s') == step.now + ABORT_COEFF * s.downEst.rto
  {
  }

  /** The newest acknowledgement is in flight, and the receiver waits a moment longer. */
  lemma {:induction false} NewestInTime(s: State, chunk: seq<byte>)
    requires |chunk| == BT_CHUNK_SIZE && Live(s, chunk) && Ack(s.down.last) in s.net
    requires s.clock < Patience(s) && 1 <= s.downEst.rto
    ensures CanCompleteInTime(s, chunk)
    decreases MAX_PACKET_PER_CHUNK - s.down.last, 2, 0
  {
    hide Inv, CanCompleteInTime, Next, Enabled;
    LiveBound(s, chunk);
    UpstreamFacts(s, chunk);
    AckInFlight(s, chunk, s.down.last);
    var wait := Look(s.clock + 1);
    WaitingKeeps(s, chunk);
    var s1 := Next(s, chunk, wait);
    if Acknowledged(s.phase.u.up) == s.down.last {
      StampsArePast(s, chunk);
      DuplicatesBringNext(s1, chunk);
    } else {
      StampsArePast(s, chunk);
      var s2 := HearNewest(s1, chunk);
      if Data(s.down.last + 1, Slice(chunk, s.down.last + 1)) in s2.net {
        NextInTime(s2, chunk);
      } else {
        DuplicatesBringNext(s2, chunk);
      }
    }
    InTimeAfter(s, chunk, wait);
  }

  lemma WaitingKeeps(s: State, chunk: seq<byte>)
    requires |chunk| == BT_CHUNK_SIZE && Live(s, chunk) && s.clock < Patience(s)
    ensures Enabled(s, Look(s.clock + 1)) && Next(s, chunk, Look(s.clock + 1)) == s.(clock := s.clock + 1)
    ensures Live(s.(clock := s.clock + 1), chunk)
  {
    hide Inv;
    StepKeepsInv(s, chunk, Look(s.clock + 1));
  }

  lemma StampsArePast(s: State, chunk: seq<byte>)
    requires |chunk| == BT_CHUNK_SIZE && Inv(s, chunk) && s.phase.Active?
    ensures forall i :: 0 <= i < |s.phase.u.up.queue| ==> s.phase.u.up.queue[i].stamp < s.clock + 1
  {
    hide Faithful, PacketOk;
    UpstreamFacts(s, chunk);
  }

  /** A send step sends the packet after what is acknowledged, or keeps the oldest packet as it is. */
  lemma SendsNextOrWaits(u: Upstream, chunk: seq<byte>, now: int, rto: int, sent: nat, atTimeout: nat)
    requires |chunk| == BT_CHUNK_SIZE && UpstreamOk(u, sent, atTimeout)
    requires Acknowledged(u.up) < MAX_PACKET_PER_CHUNK
    ensures var r, num := Send(u, chunk, now, rto), Acknowledged(u.up) + 1;
            || (num >= 1 && r.packet == Some(Data(num, Slice(chunk, num))))
            || (u.up.queue != [] && r.u.up.queue != [] && r.u.up.queue[0] == u.up.queue[0]
                && Acknowledged(r.u.up) == Acknowledged(u.up))
  {
    hide Send, Slice, WindowOk;
    SendKeepsUpstream(u, chunk, now, rto, sent, atTimeout);
    if u.up.queue == [] {
      EmptyHasRoom(u, sent, atTimeout);
    } else {
      SendIs(u, chunk, now, rto, sent, atTimeout);
      if now <= u.up.queue[0].stamp + rto {
        SendAppends(u, chunk, now, rto, sent, atTimeout);
      }
    }
  }

  lemma EmptyHasRoom(u: Upstream, sent: nat, atTimeout: nat)
    requires UpstreamOk(u, sent, atTimeout) && u.up.queue == []
    ensures sent == Acknowledged(u.up) && 1 <= u.win.cwnd
  {
  }

  /** The newest acknowledgement is handed in for the first time. */
  lemma HearNewest(s: State, chunk: seq<byte>) returns (s': State)
    requires |chunk| == BT_CHUNK_SIZE && Live(s, chunk) && Ack(s.down.last) in s.net
    requires Acknowledged(s.phase.u.up) < s.down.last
    requires forall i :: 0 <= i < |s.phase.u.up.queue| ==> s.phase.u.up.queue[i].stamp < s.clock
    ensures Live(s', chunk) && (CanCompleteInTime(s', chunk) ==> CanCompleteInTime(s, chunk))
    ensures s'.down == s.down && s'.clock == s.clock && s'.downEst == s.downEst && Patience(s') == Patience(s)
    ensures || Data(s.down.last + 1, Slice(chunk, s.down.last + 1)) in s'.net
            || (&& Ack(s.down.last) in s'.net && Acknowledged(s'.phase.u.up) == s.down.last
                && s'.phase.u.up.queue != [] && s'.phase.u.up.queue[0].stamp < s.clock)
  {
    hide Inv, CanCompleteInTime, OnAck, Slice, Send, PassOf, Shape, UpstreamOk, Infer, Sound;
    var ack, u := s.down.last, s.phase.u;
    LiveBound(s, chunk);
    UpstreamFacts(s, chunk);
    AckInFlight(s, chunk, ack);
    EstimateIsSound(s, chunk);
    var copy, step := Duplicate(Ack(ack)), Pass(Some(ack), s.clock, s.clock, s.clock);
    var s1 := Next(s, chunk, copy);
    StepKeepsInv(s, chunk, copy);
    s' := Next(s1, chunk, step);
    NewAckPassIs(s1, chunk, step);
    HeardUpstream(s1, chunk, ack, s.clock);
    var k := ack - Acknowledged(u.up);
    var heard := Upstream(Cleared(u.up, ack, s.clock), OnAck(u.win, k));
    var est := Infer(s.est, s.clock - u.up.queue[k - 1].stamp);
    InferKeepsSound(s.est, s.clock - u.up.queue[k - 1].stamp);
    SoundTimeout(est);
    AckLeavesPlain(u.win, k);
    SendsNextOrWaits(heard, chunk, s.clock, est.rto, s.sent, s.atTimeout);
    StepKeepsInv(s1, chunk, step);
    if CanCompleteInTime(s', chunk) {
      InTimeAfter(s1, chunk, step);
      InTimeAfter(s, chunk, copy);
    }
  }

  /** DATA other than the newest, and the receiver still waits. */
  lemma OtherInTime(s: State, chunk: seq<byte>, num: nat)
    requires |chunk| == BT_CHUNK_SIZE && Live(s, chunk) && 1 <= num <= MAX_PACKET_PER_CHUNK
    requires num != s.down.last && Data(num, Slice(chunk, num)) in s.net
    requires s.clock <= Patience(s) && 1 <= s.downEst.rto
    ensures CanCompleteInTime(s, chunk)
  {
    hide Inv, CanCompleteInTime, Next, Enabled;
    LiveBound(s, chunk);
    if num == s.down.last + 1 {
      NextInTime(s, chunk);
    } else {
      var deliver := Deliver(num, Slice(chunk, num), s.clock);
      AnswerOther(s, chunk, num);
      DeliveryTime(s, chunk, deliver);
      NewestInTime(Next(s, chunk, deliver), chunk);
      InTimeAfter(s, chunk, deliver);
    }
  }

  // ------------------------------------------------------------------ the condition

  /** What `Recoverable` says, early enough for the receiver. */
  ghost predicate RecoverableInTime(s: State)
    requires s.phase.Active?
  {
    || (CanRetransmit(s) && TimeoutAt(s) <= Patience(s))
    || (CanSendNew(s) && s.clock <= Patience(s))
    || (CanSendLast(s) &&
        if Acknowledged(s.phase.u.up) == s.down.last && s.phase.u.up.queue != [] then TimeoutAt(s) <= Patience(s)
        else s.clock <= Patience(s))
  }

  /** The pass that sends something useful. */
  lemma RecoveryPass(s: State, chunk: seq<byte>) returns (step: Step, num: nat)
    requires |chunk| == BT_CHUNK_SIZE && Live(s, chunk) && RecoverableInTime(s)
    ensures Enabled(s, step) && step.Pass? && step.inbound.None? && step.tClean <= Patience(s)
    ensures var s' := Next(s, chunk, step);
            && 1 <= num <= MAX_PACKET_PER_CHUNK && num != s.down.last && Data(num, Slice(chunk, num)) in s'.net
            && (s'.phase.Active? || num == s.down.last + 1 == MAX_PACKET_PER_CHUNK)
  {
    hide Next, Enabled, Inv, HasRoom, TimeoutAt, Deadline, Send, Slice;
    LiveBound(s, chunk);
    UpstreamFacts(s, chunk);
    var a, last := Acknowledged(s.phase.u.up), s.down.last;
    if (CanSendNew(s) && s.clock <= Patience(s)) || (CanSendLast(s) && a != last && s.clock <= Patience(s)) {
      RoomIsBelowMaximum(s);
      step := FreshPass(s, chunk);
      num := s.sent + 1;
    } else {
      if s.phase.u.up.queue == [] {
        QueueOfLast(s, chunk);
      }
      step := TimeoutPass(s, chunk);
      num := a + 1;
    }
  }

  lemma RoomIsBelowMaximum(s: State)
    requires s.phase.Active? && HasRoom(s)
    ensures s.sent < MAX_PACKET_PER_CHUNK
  {
  }

  lemma RecoveredInTime(s: State, chunk: seq<byte>)
    requires |chunk| == BT_CHUNK_SIZE && Live(s, chunk) && RecoverableInTime(s) && 1 <= s.downEst.rto
    ensures CanCompleteInTime(s, chunk)
  {
    hide CanCompleteInTime, Next, Enabled, Inv, RecoverableInTime, Slice, Send;
    LiveBound(s, chunk);
    var step, num := RecoveryPass(s, chunk);
    QuietPassIs(s, chunk, step);
    StepKeepsInv(s, chunk, step);
    var s' := Next(s, chunk, step);
    if num == s.down.last + 1 {
      NextInTime(s', chunk);
    } else {
      OtherInTime(s', chunk, num);
    }
    InTimeAfter(s, chunk, step);
  }

  ghost predicate OnlyNewestData(s: State)
  {
    forall p :: p in s.net ==> p.Data? && p.num == s.down.last
  }

  /** The receiver has waited too long, or what `Doomed` says with its patience in place of for ever. */
  ghost predicate TooLate(s: State, chunk: seq<byte>)
    requires |chunk| == BT_CHUNK_SIZE
  {
    && Inv(s, chunk) && s.down.status != Complete
    && (|| HasRepeat(s.down.log)
        || s.down.status != Running
        || Patience(s) < s.clock
        || (if s.phase.Active? then OnlyNewestData(s) && !RecoverableInTime(s) else Gap(s, chunk)))
  }

  lemma LaterIsNoSooner(s: State, s': State)
    requires s.phase.Active? && Later(s, s') && Patience(s') == Patience(s) && !RecoverableInTime(s)
    ensures !RecoverableInTime(s')
  {
  }

  /** A pass that ends while the receiver still waits. */
  lemma TooLatePass(s: State, chunk: seq<byte>, step: Step)
    requires |chunk| == BT_CHUNK_SIZE && Enabled(s, step) && step.Pass? && step.inbound.None?
    requires step.tClean <= Patience(s)
    requires Inv(s, chunk) && s.down.status == Running && s.phase.Active?
    requires OnlyNewestData(s) && !RecoverableInTime(s)
    ensures var s' := Next(s, chunk, step);
            && s'.down == s.down && Patience(s') == Patience(s)
            && if s'.phase.Active? then OnlyNewestData(s') && !RecoverableInTime(s') else Gap(s', chunk)
  {
    hide Inv, Send, Next, Slice, RecoverableInTime;
    RunningBound(s, chunk);
    UpstreamFacts(s, chunk);
    QuietPassIs(s, chunk, step);
    var u, s' := s.phase.u, Next(s, chunk, step);
    if u.up.queue == [] {
      SendKeepsUpstream(u, chunk, step.tSend, s.est.rto, s.sent, s.atTimeout);
      NothingSentInTime(s);
      StoppedLeavesGap(s, s', chunk, 1);
    } else {
      SendIs(u, chunk, step.tSend, s.est.rto, s.sent, s.atTimeout);
      if step.tSend - u.up.queue[0].stamp > s.est.rto {
        TimeoutTooLate(s, step);
        RestampedKeeps(u.up, step.tSend, 0);
        if s'.phase.Active? {
          NoRoomNoRecovery(s');
          NotRecoverableInTime(s');
        } else {
          StoppedLeavesGap(s, s', chunk, Acknowledged(u.up) + 1);
        }
      } else if |u.up.queue| < u.win.cwnd && s.sent < MAX_PACKET_PER_CHUNK {
        NewPacketTooLate(s, step);
        StoppedLeavesGap(s, s', chunk, s.sent + 1);
      } else if s'.phase.Active? {
        LaterIsNoSooner(s, s');
      } else {
        StoppedLeavesGap(s, s', chunk, s.down.last);
      }
    }
  }

  lemma NothingSentInTime(s: State)
    requires s.phase.Active? && s.phase.u.up.queue == [] && s.phase.u.up.size == 0 && 1 <= s.phase.u.win.cwnd
    requires s.sent == 0 && s.clock <= Patience(s) && !RecoverableInTime(s)
    ensures Deadline(s) < s.clock
  {
  }

  lemma NotRecoverableInTime(s: State)
    requires s.phase.Active? && !Recoverable(s)
    ensures !RecoverableInTime(s)
  {
  }

  lemma TimeoutTooLate(s: State, step: Step)
    requires Enabled(s, step) && step.Pass? && s.phase.Active? && s.phase.u.up.queue != []
    requires step.tSend - s.phase.u.up.queue[0].stamp > s.est.rto && step.tClean <= Patience(s)
    requires !RecoverableInTime(s)
    ensures step.tClean <= Deadline(s) ==> Acknowledged(s.phase.u.up) + 1 == s.down.last
    ensures Acknowledged(s.phase.u.up) == s.down.last ==> s.down.last != MAX_PACKET_PER_CHUNK - 1
  {
  }

  lemma NewPacketTooLate(s: State, step: Step)
    requires Enabled(s, step) && step.Pass? && s.phase.Active? && s.phase.u.up.queue != []
    requires step.tSend - s.phase.u.up.queue[0].stamp <= s.est.rto && step.tClean <= Patience(s)
    requires s.phase.u.up.size < s.phase.u.win.cwnd && s.sent < MAX_PACKET_PER_CHUNK
    requires |s.phase.u.up.queue| == s.sent - Acknowledged(s.phase.u.up)
    requires !RecoverableInTime(s)
    ensures Deadline(s) < step.tClean
    ensures s.sent == s.down.last ==> s.down.last != MAX_PACKET_PER_CHUNK - 1
  {
    assert HasRoom(s);
  }

  lemma QuietStepKeepsReceiver(s: State, chunk: seq<byte>, step: Step)
    requires |chunk| == BT_CHUNK_SIZE && !step.Deliver? && !step.Sample?
    ensures var s' := Next(s, chunk, step);
            && Patience(s') == Patience(s) && s'.down.last == s.down.last && s'.down.log == s.down.log
            && (s'.down.status == s.down.status || s'.down.status == Abandoned)
            && (Enabled(s, step) ==> s.clock <= s'.clock) && (step.Pass? ==> s'.clock == step.tClean)
  {
    hide Send, OnAckPacket, Acknowledge, TimedOut;
  }

  lemma StepStaysTooLate(s: State, chunk: seq<byte>, step: Step)
    requires |chunk| == BT_CHUNK_SIZE && TooLate(s, chunk) && Enabled(s, step) && !step.Sample?
    requires step.Deliver? && s.down.status == Running ==> step.now <= Patience(s)
    ensures TooLate(Next(s, chunk, step), chunk)
  {
    hide Inv, HasRepeat, RecoverableInTime, Gap, Next, Patience;
    StepKeepsInv(s, chunk, step);
    var s' := Next(s, chunk, step);
    if HasRepeat(s.down.log) {
      RepeatPersists(s, chunk, step);
      RepeatIsNotComplete(s', chunk);
    } else if s.down.status != Running {
      DoneStaysDone(s, chunk, step);
    } else if step.Deliver? {
      DoomedDelivery(s, chunk, step);
    } else {
      QuietStepKeepsReceiver(s, chunk, step);
      if s'.down.status == Running && s'.clock <= Patience(s) {
        if step.Pass? && s.phase.Active? {
          TooLatePass(s, chunk, step);
        } else {
          IdleIsLater(s, chunk, step);
          if s.phase.Active? {
            LaterIsNoSooner(s, s');
          } else {
            GapStays(s, s', chunk);
          }
        }
      }
    }
  }

  lemma {:induction false} TooLateNeverCompletes(s: State, chunk: seq<byte>, steps: seq<Step>)
    requires |chunk| == BT_CHUNK_SIZE && TooLate(s, chunk)
    requires Lone(steps) && Possible(s, chunk, steps) && Patient(s, chunk, steps)
    ensures Run(s, chunk, steps).down.status != Complete
    decreases |steps|
  {
    if steps != [] {
      hide TooLate, Next, Enabled, Patience;
      StepStaysTooLate(s, chunk, steps[0]);
      TooLateNeverCompletes(Next(s, chunk, steps[0]), chunk, steps[1..]);
    } else {
      hide Inv, HasRepeat, RecoverableInTime, Gap;
    }
  }

  /** With no acknowledgement in flight and a receiver that looks in time: a live transfer can still
      deliver its chunk exactly when something useful can reach the receiver before its patience ends,
      a packet already in flight or one that the sender can still send. One useful packet is enough:
      from then on duplicates of the answers spare the sender its own timeout. */
  lemma InTimeIff(s: State, chunk: seq<byte>)
    requires |chunk| == BT_CHUNK_SIZE && Live(s, chunk) && 1 <= s.downEst.rto
    requires forall ack: nat :: Ack(ack) !in s.net
    ensures CanCompleteInTime(s, chunk) <==>
              || (s.clock <= Patience(s) && exists p :: p in s.net && p.Data? && p.num != s.down.last)
              || RecoverableInTime(s)
  {
    hide Next, Enabled, Inv, RecoverableInTime, CanCompleteInTime, Patience;
    if RecoverableInTime(s) {
      RecoveredInTime(s, chunk);
    } else if p :| s.clock <= Patience(s) && p in s.net && p.Data? && p.num != s.down.last {
      DataInFlight(s, chunk, p);
      OtherInTime(s, chunk, p.num);
    } else {
      forall p | p in s.net && s.clock <= Patience(s)
        ensures p.Data? && p.num == s.down.last
      {
        match p
        case Data(_, _) =>
        case Ack(_) =>
      }
      assert TooLate(s, chunk);
      NeverInTime(s, chunk);
    }
  }

  lemma NeverInTime(s: State, chunk: seq<byte>)
    requires |chunk| == BT_CHUNK_SIZE && TooLate(s, chunk)
    ensures !CanCompleteInTime(s, chunk)
  {
    hide TooLate, Next, Enabled, Patience;
    forall steps | Lone(steps) && Possible(s, chunk, steps) && Patient(s, chunk, steps)
      ensures Run(s, chunk, steps).down.status != Complete
    {
      TooLateNeverCompletes(s, chunk, steps);
    }
  }

  /** Punctual runs are runs. */
  lemma InTimeIsPossible(s: State, chunk: seq<byte>)
    requires |chunk| == BT_CHUNK_SIZE && CanCompleteInTime(s, chunk)
    ensures CanComplete(s, chunk)
  {
    hide Next, Enabled, Patience;
  }
}
