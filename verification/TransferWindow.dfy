/**
  How acknowledgements that say nothing new can help a session to deliver its chunk: each gives the
  upload more time, and in the linear phase one of zero packets still takes from the counter and can
  widen the window (congestion_control.c:29-38), until a new packet may be sent in place of the fatal
  retransmission of the receiver's newest.
 */
module TransferWindow {
  import opened Wrappers
  import opened Common
  import opened RoundTrip
  import opened CongestionControl
  import opened SentQueue
  import opened Sender
  import opened Receiver
  import opened Transfer
  import opened TransferRuns
  import opened TransferLiveness

  // --------------------------------------------------------- passes, field by field

  lemma QuietPassIs(s: State, chunk: seq<byte>, step: Step)
    requires |chunk| == BT_CHUNK_SIZE && step.Pass? && step.inbound.None? && s.phase.Active?
    ensures var s' := Next(s, chunk, step);
            var r := Send(s.phase.u, chunk, step.tSend, s.est.rto);
            && s'.phase == (if step.tClean <= Deadline(s) then Active(r.u) else Closed(false))
            && s'.net == s.net + AsBag(r.packet) && s'.sent == TailNumber(r.u.up)
            && s'.est == s.est && s'.down == s.down && s'.clock == step.tClean
            && s'.downEst == s.downEst && s'.downTime == s.downTime
  {
    hide Send, TimedOut;
  }

  lemma OldAckPassIs(s: State, chunk: seq<byte>, step: Step)
    requires |chunk| == BT_CHUNK_SIZE && step.Pass? && step.inbound.Some? && s.phase.Active?
    requires Shape(s.phase.u.up) && s.phase.u.up.queue != [] && !Fatal(s.phase.u.up, step.inbound.value)
    requires step.inbound.value <= Acknowledged(s.phase.u.up) < MAX_PACKET_PER_CHUNK
    ensures var ack, s', u := step.inbound.value, Next(s, chunk, step), s.phase.u;
            var heard := Upstream(Noted(u.up, ack, s.est.rto, step.tAck), OnAck(u.win, 0));
            var r := Send(heard, chunk, step.tSend, s.est.rto);
            && s'.phase == (if step.tClean <= step.tAck + ABORT_COEFF * s.est.rto then Active(r.u) else Closed(false))
            && s'.net == s.net - multiset{Ack(ack)} + AsBag(r.packet) && s'.sent == TailNumber(r.u.up)
            && s'.est == s.est && s'.down == s.down && s'.clock == step.tClean
            && s'.downEst == s.downEst && s'.downTime == s.downTime
  {
    hide Send, TimedOut, OnAckPacket, Acknowledge, OnAck;
    var ack, u := step.inbound.value, s.phase.u;
    OldAckIsNoted(u, s.est, ack, step.tAck);
    NotedKeeps(u.up, ack, s.est.rto, step.tAck);
    assert s.(est := s.est) == s;
  }

  lemma UpstreamFacts(s: State, chunk: seq<byte>)
    requires |chunk| == BT_CHUNK_SIZE && Inv(s, chunk) && s.phase.Active?
    ensures var u := s.phase.u;
            && Shape(u.up) && Plain(u.win) && 1 <= u.win.cwnd && u.up.size == |u.up.queue|
            && 0 <= Acknowledged(u.up) < MAX_PACKET_PER_CHUNK && Acknowledged(u.up) <= s.down.last
            && TailNumber(u.up) == s.sent <= MAX_PACKET_PER_CHUNK && s.down.last <= s.sent
            && |u.up.queue| == s.sent - Acknowledged(u.up)
            && (u.up.queue == [] ==> s.sent == 0)
            && 0 <= s.est.rto && Timed(u.up, s.clock) && u.up.dupAck <= 2
            && UpstreamOk(u, s.sent, s.atTimeout)
  {
    hide Faithful, PacketOk;
  }

  // ------------------------------------------------------------------- definitions

  ghost predicate Hopeful(s: State, ack: nat)
    requires s.phase.Active?
  {
    Ack(ack) in s.net && !Fatal(s.phase.u.up, ack)
  }

  /** How many packets are outstanding once only the receiver's newest and those after it are. */
  function Beyond(s: State): int
  {
    s.sent + 1 - s.down.last
  }

  /** The stamp of the oldest packet after `ack`. */
  function HeadAfter(u: Upload, ack: nat, rto: int): int
    requires u.queue != []
  {
    if ack == u.lastAck && u.dupAck == 2 then u.queue[0].stamp - rto else u.queue[0].stamp
  }

  /** Some pass can come before the oldest packet times out without giving the upload up. */
  ghost predicate InTime(s: State)
    requires s.phase.Active? && s.phase.u.up.queue != []
  {
    var up := s.phase.u.up;
    && s.clock <= up.queue[0].stamp + s.est.rto
    && (s.clock <= Deadline(s) ||
        exists ack: nat :: Hopeful(s, ack) && s.clock <= HeadAfter(up, ack, s.est.rto) + s.est.rto)
  }

  /** The window from which acknowledgements of zero packets start: once the sender has heard of all
      packets before the newest, or, when it has, after the timeout that cannot be avoided if any. */
  ghost function BestWindow(s: State): Window
    requires s.phase.Active? && s.phase.u.up.queue != [] && Acknowledged(s.phase.u.up) < s.down.last
  {
    var u := s.phase.u;
    if Acknowledged(u.up) + 1 != s.down.last then OnAck(u.win, s.down.last - 1 - Acknowledged(u.up))
    else if InTime(s) then u.win
    else if s.clock <= Deadline(s) then OnTimeout(u.win)
    else OnTimeout(OnAck(u.win, 0))
  }

  /** An acknowledgement can be handed in, and the counter holds enough to make room. */
  ghost predicate Widens(s: State)
    requires s.phase.Active?
  {
    && s.phase.u.up.queue != [] && 0 <= Acknowledged(s.phase.u.up) < s.down.last
    && s.sent < MAX_PACKET_PER_CHUNK
    && (exists ack: nat :: Hopeful(s, ack))
    && !Shut(BestWindow(s), Beyond(s))
  }

  ghost predicate TwoValues(s: State)
  {
    exists a: nat, b: nat :: a != b && Ack(a) in s.net && Ack(b) in s.net
  }

  /** How often `ack` can be handed in before it is a third duplicate. */
  function Spare(u: Upload, ack: nat): int
  {
    if ack == u.lastAck then 2 - u.dupAck else 3
  }

  /** How many of these are left for `BestWindow`. */
  ghost function Hands(s: State, ack: nat): int
    requires s.phase.Active? && s.phase.u.up.queue != []
  {
    if InTime(s) || s.clock <= Deadline(s) then Spare(s.phase.u.up, ack)
    else Spare(s.phase.u.up, ack) - 1
  }

  /** Two different acknowledgements can be handed in by turns for ever; a stale one alone must do
      before its third duplicate stops the process. */
  ghost predicate Enough(s: State)
    requires s.phase.Active? && s.phase.u.up.queue != [] && Acknowledged(s.phase.u.up) < s.down.last
  {
    || TwoValues(s)
    || (exists ack: nat :: Hopeful(s, ack) && ack < Acknowledged(s.phase.u.up) && StaleOpens(s, ack))
  }

  ghost predicate StaleOpens(s: State, ack: nat)
    requires s.phase.Active? && s.phase.u.up.queue != [] && Acknowledged(s.phase.u.up) < s.down.last
  {
    || (1 <= Hands(s, ack) && BestWindow(s).cwnd + Hands(s, ack) > Beyond(s))
    || AtOnce(s, ack)
  }

  /** The pass at the current time that hands in `ack` sends a new packet. */
  ghost predicate AtOnce(s: State, ack: nat)
    requires s.phase.Active? && s.phase.u.up.queue != []
  {
    var u := s.phase.u;
    && Acknowledged(u.up) + 1 == s.down.last
    && s.clock <= HeadAfter(u.up, ack, s.est.rto) + s.est.rto && OnAck(u.win, 0).cwnd > Beyond(s)
  }

  // ------------------------------------------------- zero packets, one by one

  /** Every acknowledgement in flight is older than the newest, and exactly the newest and what was
      sent after it are outstanding. */
  ghost predicate Corner(s: State)
    requires s.phase.Active?
  {
    && Acknowledged(s.phase.u.up) + 1 == s.down.last
    && forall ack: nat :: Ack(ack) in s.net ==> ack < s.down.last
  }

  lemma OldUpstreamOk(s: State, chunk: seq<byte>, ack: nat, t: int)
    requires |chunk| == BT_CHUNK_SIZE && Inv(s, chunk) && s.phase.Active? && Hopeful(s, ack)
    requires ack <= Acknowledged(s.phase.u.up) && s.phase.u.up.queue != []
    ensures var u := s.phase.u;
            UpstreamOk(Upstream(Noted(u.up, ack, s.est.rto, t), OnAck(u.win, 0)), s.sent, s.atTimeout)
  {
    hide Noted, OnAck, OnAckPacket, WindowOk, Shape, Faithful;
    AckInFlight(s, chunk, ack);
    UpstreamFacts(s, chunk);
    OldAckIsNoted(s.phase.u, s.est, ack, t);
    AckKeepsUpstream(s.phase.u, s.est, ack, t, s.sent, s.atTimeout);
  }

  lemma NotedSpares(u: Upload, ack: nat, rto: int, now: int)
    requires u.queue != [] && u.dupAck <= 2
    ensures Spare(Noted(u, ack, rto, now), ack) == if Spare(u, ack) == 0 then 2 else Spare(u, ack) - 1
  {
  }

  lemma NotedHead(u: Upload, ack: nat, rto: int, now: int)
    requires u.queue != []
    ensures Noted(u, ack, rto, now).queue != []
    ensures Noted(u, ack, rto, now).queue[0].stamp == HeadAfter(u, ack, rto)
  {
  }

  /** One acknowledgement is handed in at time `t`. */
  lemma HandIn(s: State, chunk: seq<byte>, ack: nat, t: int) returns (step: Step)
    requires |chunk| == BT_CHUNK_SIZE && Live(s, chunk) && Corner(s) && Hopeful(s, ack) && s.clock <= t
    ensures step == Pass(Some(ack), t, t, t) && Enabled(s, step)
    ensures var s', u := Next(s, chunk, step), s.phase.u;
            var up := Noted(u.up, ack, s.est.rto, t);
            var w := OnAck(u.win, 0);
            && Live(s', chunk) && s'.down == s.down && s'.est == s.est && s'.clock == t
            && (if t > HeadAfter(u.up, ack, s.est.rto) + s.est.rto then
                  && s'.phase.u == Upstream(Restamped(up, t), OnTimeout(w)) && s'.sent == s.sent
                  && s'.net == s.net - multiset{Ack(ack)} + multiset{Data(s.down.last, Slice(chunk, s.down.last))}
                else if Beyond(s) < w.cwnd && s.sent < MAX_PACKET_PER_CHUNK then
                  Data(s.sent + 1, Slice(chunk, s.sent + 1)) in s'.net
                else
                  && s'.phase.u == Upstream(up, w) && s'.sent == s.sent
                  && s'.net == s.net - multiset{Ack(ack)})
  {
    hide Inv, Send, Shape, OnAck, UpstreamOk, Noted, Next;
    step := Pass(Some(ack), t, t, t);
    UpstreamFacts(s, chunk);
    AckInFlight(s, chunk, ack);
    var u := s.phase.u;
    OldAckPassIs(s, chunk, step);
    OldUpstreamOk(s, chunk, ack, t);
    NotedHead(u.up, ack, s.est.rto, t);
    NotedKeeps(u.up, ack, s.est.rto, t);
    var heard := Upstream(Noted(u.up, ack, s.est.rto, t), OnAck(u.win, 0));
    SendIs(heard, chunk, t, s.est.rto, s.sent, s.atTimeout);
    StepKeepsInv(s, chunk, step);
  }

  /** The same with a copy, so that what was in flight still is. */
  lemma HandInCopy(s: State, chunk: seq<byte>, ack: nat, t: int) returns (s': State)
    requires |chunk| == BT_CHUNK_SIZE && Live(s, chunk) && Corner(s) && Hopeful(s, ack) && s.clock <= t
    ensures Live(s', chunk) && (CanComplete(s', chunk) ==> CanComplete(s, chunk))
    ensures var u := s.phase.u;
            var up := Noted(u.up, ack, s.est.rto, t);
            var w := OnAck(u.win, 0);
            && s'.down == s.down && s'.est == s.est && s'.clock == t
            && (if t > HeadAfter(u.up, ack, s.est.rto) + s.est.rto then
                  && s'.phase.u == Upstream(Restamped(up, t), OnTimeout(w)) && s'.sent == s.sent
                  && s'.net == s.net + multiset{Data(s.down.last, Slice(chunk, s.down.last))}
                else if Beyond(s) < w.cwnd && s.sent < MAX_PACKET_PER_CHUNK then
                  Data(s.sent + 1, Slice(chunk, s.sent + 1)) in s'.net
                else
                  && s'.phase.u == Upstream(up, w) && s'.sent == s.sent
                  && s'.net == s.net)
  {
    hide Inv, CanComplete, Noted, OnAck, Slice, PassOf, Fatal;
    var copy := Duplicate(Ack(ack));
    var s1 := Next(s, chunk, copy);
    StepKeepsInv(s, chunk, copy);
    var step := HandIn(s1, chunk, ack, t);
    s' := Next(s1, chunk, step);
    assert s1.net - multiset{Ack(ack)} == s.net;
    if CanComplete(s', chunk) {
      CompleteAfter(s1, chunk, step);
      CompleteAfter(s, chunk, copy);
    }
  }

  /** Some acknowledgement can be handed in without being a third duplicate. */
  ghost predicate CanHandIn(s: State, ack: nat)
    requires s.phase.Active?
  {
    TwoValues(s) ||
    (Ack(ack) in s.net && 1 <= Spare(s.phase.u.up, ack) && s.phase.u.win.cwnd + Spare(s.phase.u.up, ack) > Beyond(s))
  }

  lemma PickHand(s: State, ack: nat) returns (hand: nat)
    requires s.phase.Active? && CanHandIn(s, ack)
    ensures Ack(hand) in s.net && 1 <= Spare(s.phase.u.up, hand)
    ensures TwoValues(s) || hand == ack
  {
    if TwoValues(s) {
      var a: nat, b: nat :| a != b && Ack(a) in s.net && Ack(b) in s.net;
      hand := if a == s.phase.u.up.lastAck then b else a;
    } else {
      hand := ack;
    }
  }

  /** Acknowledgements handed in at one moment, before the oldest packet times out, open the window
      one by one. */
  lemma {:induction false} OpeningCanComplete(s: State, chunk: seq<byte>, ack: nat)
    requires |chunk| == BT_CHUNK_SIZE && Live(s, chunk) && Corner(s) && s.phase.u.up.queue != []
    requires s.sent < MAX_PACKET_PER_CHUNK && !Shut(s.phase.u.win, Beyond(s))
    requires s.clock <= s.phase.u.up.queue[0].stamp + s.est.rto && CanHandIn(s, ack)
    ensures CanComplete(s, chunk)
    decreases Max(0, Beyond(s) + 1 - s.phase.u.win.cwnd)
  {
    hide Inv, CanComplete, Shut, OnAck, Next;
    UpstreamFacts(s, chunk);
    var u, n := s.phase.u, Beyond(s);
    var hand := PickHand(s, ack);
    var s' := HandInCopy(s, chunk, hand, s.clock);
    AckGrows(u.win);
    if n < OnAck(u.win, 0).cwnd {
      RetransmittedCanComplete(s', chunk, s.sent + 1, false);
    } else {
      OpensByOne(u.win, n);
      NotedHead(u.up, hand, s.est.rto, s.clock);
      NotedSpare(u.up, hand, s.est.rto, s.clock);
      NotedKeeps(u.up, hand, s.est.rto, s.clock);
      OpeningCanComplete(s', chunk, ack);
    }
  }

  lemma AckGrows(w: Window)
    ensures w.cwnd <= OnAck(w, 0).cwnd <= w.cwnd + 1
  {
  }

  lemma NotedSpare(u: Upload, ack: nat, rto: int, now: int)
    requires u.queue != [] && 1 <= Spare(u, ack) && u.dupAck <= 2
    ensures Spare(Noted(u, ack, rto, now), ack) == Spare(u, ack) - 1
    ensures HeadAfter(u, ack, rto) == u.queue[0].stamp
  {
  }

  /** A timeout that no pass can avoid comes first, and leaves a window of one. */
  lemma TimedOutCanComplete(s: State, chunk: seq<byte>, ack: nat)
    requires |chunk| == BT_CHUNK_SIZE && Live(s, chunk) && Corner(s) && s.phase.u.up.queue != []
    requires s.sent < MAX_PACKET_PER_CHUNK && !Shut(OnTimeout(s.phase.u.win), Beyond(s))
    requires s.phase.u.up.queue[0].stamp + s.est.rto < s.clock <= Deadline(s)
    requires TwoValues(s) ||
             (Ack(ack) in s.net && 1 <= Spare(s.phase.u.up, ack) && 1 + Spare(s.phase.u.up, ack) > Beyond(s))
    ensures CanComplete(s, chunk)
  {
    hide Inv, CanComplete, Shut, Send, Next;
    UpstreamFacts(s, chunk);
    var u := s.phase.u;
    var step := TimeoutPass(s, chunk);
    QuietPassIs(s, chunk, step);
    SendIs(u, chunk, s.clock, s.est.rto, s.sent, s.atTimeout);
    StepKeepsInv(s, chunk, step);
    var s' := Next(s, chunk, step);
    RestampedKeeps(u.up, s.clock, ack);
    OpeningCanComplete(s', chunk, ack);
    CompleteAfter(s, chunk, step);
  }

  lemma RestampedKeeps(u: Upload, stamp: int, ack: nat)
    requires u.queue != []
    ensures var u' := Restamped(u, stamp);
            && u'.queue != [] && u'.queue[0].stamp == stamp && Acknowledged(u') == Acknowledged(u)
            && Spare(u', ack) == Spare(u, ack)
  {
  }

  /** The same when only an acknowledgement saves the upload from being given up in that pass. */
  lemma LateCanComplete(s: State, chunk: seq<byte>, ack: nat)
    requires |chunk| == BT_CHUNK_SIZE && Live(s, chunk) && Corner(s) && s.phase.u.up.queue != []
    requires s.sent < MAX_PACKET_PER_CHUNK && !Shut(OnTimeout(OnAck(s.phase.u.win, 0)), Beyond(s))
    requires s.phase.u.up.queue[0].stamp + s.est.rto < s.clock
    requires TwoValues(s) || (Ack(ack) in s.net && Spare(s.phase.u.up, ack) > Beyond(s))
    ensures CanComplete(s, chunk)
  {
    hide Inv, CanComplete, Shut, OnAck, Next;
    UpstreamFacts(s, chunk);
    var u := s.phase.u;
    assert CanHandIn(s, ack);
    var hand := PickHand(s, ack);
    var s' := HandInCopy(s, chunk, hand, s.clock);
    NotedSpare(u.up, hand, s.est.rto, s.clock);
    NotedKeeps(u.up, hand, s.est.rto, s.clock);
    RestampedKeeps(Noted(u.up, hand, s.est.rto, s.clock), s.clock, ack);
    OpeningCanComplete(s', chunk, ack);
  }

  // ----------------------------------------- the acknowledgement before the newest

  /** What an acknowledgement of outstanding packets leaves. */
  function Cleared(u: Upload, ack: nat, now: int): Upload
    requires Acknowledged(u) < ack <= TailNumber(u)
  {
    var k := ack - Acknowledged(u);
    u.(queue := u.queue[k..], size := u.size - k, lastAck := ack, dupAck := 0, lastTime := now)
  }

  lemma NewAckIs(u: Upstream, est: Estimator, ack: nat, now: int)
    requires Shape(u.up) && Acknowledged(u.up) < ack <= TailNumber(u.up) && ack < MAX_PACKET_PER_CHUNK
    ensures var k := ack - Acknowledged(u.up);
            && Acknowledge(u.up, est, ack, now).est == Infer(est, now - u.up.queue[k - 1].stamp)
            && OnAckPacket(u, est, ack, now) == Continues(Upstream(Cleared(u.up, ack, now), OnAck(u.win, k)))
  {
    hide OnAck, Infer, Pop;
    PopIs(u.up, 0, est, ack, now);
  }

  lemma NewAckPassIs(s: State, chunk: seq<byte>, step: Step)
    requires |chunk| == BT_CHUNK_SIZE && step.Pass? && step.inbound.Some? && s.phase.Active?
    requires var ack, up := step.inbound.value, s.phase.u.up;
             Shape(up) && Acknowledged(up) < ack <= TailNumber(up) && ack < MAX_PACKET_PER_CHUNK
    ensures var ack, s', u := step.inbound.value, Next(s, chunk, step), s.phase.u;
            var k := ack - Acknowledged(u.up);
            var est := Infer(s.est, step.tAck - u.up.queue[k - 1].stamp);
            var r := Send(Upstream(Cleared(u.up, ack, step.tAck), OnAck(u.win, k)), chunk, step.tSend, est.rto);
            && s'.phase == (if step.tClean <= step.tAck + ABORT_COEFF * est.rto then Active(r.u) else Closed(false))
            && s'.net == s.net - multiset{Ack(ack)} + AsBag(r.packet) && s'.sent == TailNumber(r.u.up)
            && s'.est == est && s'.down == s.down && s'.clock == step.tClean
            && s'.downEst == s.downEst && s'.downTime == s.downTime
  {
    hide Send, TimedOut, OnAckPacket, Acknowledge, OnAck, Infer;
    NewAckIs(s.phase.u, s.est, step.inbound.value, step.tAck);
  }

  /** Late enough for the timeout that the sample leaves to be longer than the wait so far. */
  function LongWait(s: State): (t: int)
    requires s.phase.Active? && Sound(s.est)
    requires 1 <= s.down.last - 1 - Acknowledged(s.phase.u.up) < |s.phase.u.up.queue|
    ensures s.clock <= t
  {
    var up := s.phase.u.up;
    var k := s.down.last - 1 - Acknowledged(up);
    s.clock + 3 * s.est.rtt + 6 + Max(0, up.queue[k - 1].stamp - up.queue[k].stamp)
  }

  lemma SoundIsNatural(e: Estimator)
    requires Sound(e)
    ensures 0 <= e.rtt
  {
  }

  lemma LongWaitIsLong(s: State)
    requires s.phase.Active? && Sound(s.est) && Timed(s.phase.u.up, s.clock)
    requires 1 <= s.down.last - 1 - Acknowledged(s.phase.u.up) < |s.phase.u.up.queue|
    ensures var up, t := s.phase.u.up, LongWait(s);
            var k := s.down.last - 1 - Acknowledged(up);
            t <= up.queue[k].stamp + Infer(s.est, t - up.queue[k - 1].stamp).rto
  {
    var up, t := s.phase.u.up, LongWait(s);
    var k := s.down.last - 1 - Acknowledged(up);
    hide Infer, Sound;
    assert s.est.rtt >= 0 by { SoundIsNatural(s.est); }
    assert up.queue[k - 1].stamp <= s.clock;
    LongSample(s.est, t - up.queue[k - 1].stamp, up.queue[k - 1].stamp - up.queue[k].stamp);
  }

  lemma EstimateIsSound(s: State, chunk: seq<byte>)
    requires |chunk| == BT_CHUNK_SIZE && Inv(s, chunk)
    ensures Sound(s.est)
  {
    hide Faithful, PacketOk, PhaseOk;
  }

  lemma HeardUpstream(s: State, chunk: seq<byte>, ack: nat, t: int)
    requires |chunk| == BT_CHUNK_SIZE && Inv(s, chunk) && s.phase.Active?
    requires Acknowledged(s.phase.u.up) < ack <= s.sent && ack < MAX_PACKET_PER_CHUNK
    ensures var u := s.phase.u;
            UpstreamOk(Upstream(Cleared(u.up, ack, t), OnAck(u.win, ack - Acknowledged(u.up))), s.sent, s.atTimeout)
  {
    hide OnAck, OnAckPacket, WindowOk, Faithful, Cleared, Infer;
    UpstreamFacts(s, chunk);
    NewAckIs(s.phase.u, s.est, ack, t);
    AckKeepsUpstream(s.phase.u, s.est, ack, t, s.sent, s.atTimeout);
  }

  /** An acknowledgement of packets is handed in at `tAck`; the pass sends at `tSend`. */
  lemma HearFirst(s: State, chunk: seq<byte>, ack: nat, tAck: int, tSend: int) returns (step: Step)
    requires |chunk| == BT_CHUNK_SIZE && Live(s, chunk) && Ack(ack) in s.net
    requires Acknowledged(s.phase.u.up) < ack && ack + 1 == s.down.last && s.clock <= tAck <= tSend
    requires var up := s.phase.u.up; var k := ack - Acknowledged(up);
             k < |up.queue| && tSend <= tAck + ABORT_COEFF * Infer(s.est, tAck - up.queue[k - 1].stamp).rto
    ensures step == Pass(Some(ack), tAck, tSend, tSend) && Enabled(s, step)
    ensures var s', u, k := Next(s, chunk, step), s.phase.u, ack - Acknowledged(s.phase.u.up);
            var up, w, est := Cleared(u.up, ack, tAck), OnAck(u.win, k), Infer(s.est, tAck - u.up.queue[k - 1].stamp);
            var rest := s.net - multiset{Ack(ack)};
            && Live(s', chunk) && s'.down == s.down && s'.est == est && s'.clock == tSend
            && (if tSend > u.up.queue[k].stamp + est.rto then
                  && s'.phase.u == Upstream(Restamped(up, tSend), OnTimeout(w)) && s'.sent == s.sent
                  && s'.net == rest + multiset{Data(s.down.last, Slice(chunk, s.down.last))}
                else if Beyond(s) < w.cwnd && s.sent < MAX_PACKET_PER_CHUNK then
                  Data(s.sent + 1, Slice(chunk, s.sent + 1)) in s'.net
                else
                  s'.phase.u == Upstream(up, w) && s'.sent == s.sent && s'.net == rest)
  {
    hide Inv, Send, Next, OnAck, UpstreamOk, Infer, Shape, Slice;
    UpstreamFacts(s, chunk);
    LiveBound(s, chunk);
    step := Pass(Some(ack), tAck, tSend, tSend);
    NewAckPassIs(s, chunk, step);
    var u, k := s.phase.u, ack - Acknowledged(s.phase.u.up);
    var est, heard := Infer(s.est, tAck - u.up.queue[k - 1].stamp), Upstream(Cleared(u.up, ack, tAck), OnAck(u.win, k));
    HeardUpstream(s, chunk, ack, tAck);
    SendIs(heard, chunk, tSend, est.rto, s.sent, s.atTimeout);
    StepKeepsInv(s, chunk, step);
  }

  /** The same with a copy. */
  lemma HearCopy(s: State, chunk: seq<byte>, ack: nat, tAck: int, tSend: int) returns (s': State)
    requires |chunk| == BT_CHUNK_SIZE && Live(s, chunk) && Ack(ack) in s.net
    requires Acknowledged(s.phase.u.up) < ack && ack + 1 == s.down.last && s.clock <= tAck <= tSend
    requires var up := s.phase.u.up; var k := ack - Acknowledged(up);
             k < |up.queue| && tSend <= tAck + ABORT_COEFF * Infer(s.est, tAck - up.queue[k - 1].stamp).rto
    ensures Live(s', chunk) && (CanComplete(s', chunk) ==> CanComplete(s, chunk))
    ensures var u, k := s.phase.u, ack - Acknowledged(s.phase.u.up);
            var up, w, est := Cleared(u.up, ack, tAck), OnAck(u.win, k), Infer(s.est, tAck - u.up.queue[k - 1].stamp);
            && s'.down == s.down && s'.est == est && s'.clock == tSend
            && (if tSend > u.up.queue[k].stamp + est.rto then
                  && s'.phase.u == Upstream(Restamped(up, tSend), OnTimeout(w)) && s'.sent == s.sent
                  && s'.net == s.net + multiset{Data(s.down.last, Slice(chunk, s.down.last))}
                else if Beyond(s) < w.cwnd && s.sent < MAX_PACKET_PER_CHUNK then
                  Data(s.sent + 1, Slice(chunk, s.sent + 1)) in s'.net
                else
                  s'.phase.u == Upstream(up, w) && s'.sent == s.sent && s'.net == s.net)
  {
    hide Inv, CanComplete, Next, OnAck, Infer, Slice, Enabled, Cleared;
    var copy := Duplicate(Ack(ack));
    var s1 := Copied(s, chunk, Ack(ack));
    var step := HearFirst(s1, chunk, ack, tAck, tSend);
    s' := Next(s1, chunk, step);
    assert s1.net - multiset{Ack(ack)} == s.net;
    if CanComplete(s', chunk) {
      CompleteAfter(s1, chunk, step);
      CompleteAfter(s, chunk, copy);
    }
  }

  lemma Copied(s: State, chunk: seq<byte>, p: Packet) returns (s': State)
    requires |chunk| == BT_CHUNK_SIZE && Live(s, chunk) && p in s.net
    ensures s' == Next(s, chunk, Duplicate(p)) == s.(net := s.net + multiset{p})
    ensures Live(s', chunk) && Enabled(s, Duplicate(p))
  {
    hide Inv;
    s' := Next(s, chunk, Duplicate(p));
    StepKeepsInv(s, chunk, Duplicate(p));
  }

  lemma FirstTimeoutIsNatural(s: State, chunk: seq<byte>, ack: nat, t: int)
    requires |chunk| == BT_CHUNK_SIZE && Inv(s, chunk) && s.phase.Active? && s.clock <= t
    requires 1 <= ack - Acknowledged(s.phase.u.up) < |s.phase.u.up.queue|
    ensures var rto := Infer(s.est, t - s.phase.u.up.queue[ack - Acknowledged(s.phase.u.up) - 1].stamp).rto;
            0 <= rto && (s.clock + 7 <= t ==> 1 <= rto)
  {
    hide Inv, Infer, Sound;
    UpstreamFacts(s, chunk);
    EstimateIsSound(s, chunk);
    var k := ack - Acknowledged(s.phase.u.up);
    var sample := t - s.phase.u.up.queue[k - 1].stamp;
    InferKeepsSound(s.est, sample);
    SoundTimeout(Infer(s.est, sample));
  }

  lemma LastButOneCanComplete(s: State, chunk: seq<byte>)
    requires |chunk| == BT_CHUNK_SIZE && Live(s, chunk) && Acknowledged(s.phase.u.up) + 1 < s.down.last
    requires Ack(s.down.last - 1) in s.net && forall ack: nat :: Ack(ack) in s.net ==> ack < s.down.last
    requires s.sent < MAX_PACKET_PER_CHUNK && TwoValues(s)
    requires !Shut(OnAck(s.phase.u.win, s.down.last - 1 - Acknowledged(s.phase.u.up)), Beyond(s))
    ensures CanComplete(s, chunk)
  {
    hide Inv, CanComplete, Shut, OnAck, Next, Infer;
    UpstreamFacts(s, chunk);
    EstimateIsSound(s, chunk);
    var ack, t := s.down.last - 1, LongWait(s);
    LongWaitIsLong(s);
    FirstTimeoutIsNatural(s, chunk, ack, t);
    var s' := HearCopy(s, chunk, ack, t, t);
    if Beyond(s) < OnAck(s.phase.u.win, ack - Acknowledged(s.phase.u.up)).cwnd {
      RetransmittedCanComplete(s', chunk, s.sent + 1, false);
    } else {
      OpeningCanComplete(s', chunk, ack);
    }
  }

  lemma AllAreOlder(s: State, chunk: seq<byte>)
    requires |chunk| == BT_CHUNK_SIZE && Live(s, chunk)
    requires forall ack: nat :: Hopeful(s, ack) ==> Max(ack, Acknowledged(s.phase.u.up)) + 1 == s.down.last
    ensures forall ack: nat :: Ack(ack) in s.net ==> ack < s.down.last
  {
    hide Inv;
    UpstreamFacts(s, chunk);
    forall ack: nat | Ack(ack) in s.net
      ensures ack < s.down.last
    {
      if !Fatal(s.phase.u.up, ack) {
        assert Hopeful(s, ack);
      }
    }
  }

  /** The window can be opened by what is in flight. */
  lemma WidenedCanComplete(s: State, chunk: seq<byte>)
    requires |chunk| == BT_CHUNK_SIZE && Live(s, chunk) && Widens(s) && Enough(s)
    requires forall ack: nat :: Hopeful(s, ack) ==> Max(ack, Acknowledged(s.phase.u.up)) + 1 == s.down.last
    ensures CanComplete(s, chunk)
  {
    hide Inv, CanComplete, Shut, OnAck, Next, Noted;
    UpstreamFacts(s, chunk);
    var up := s.phase.u.up;
    AllAreOlder(s, chunk);
    if Acknowledged(up) + 1 != s.down.last {
      var ack: nat :| Hopeful(s, ack);
      LastButOneCanComplete(s, chunk);
    } else if ack: nat :| Hopeful(s, ack) && ack < Acknowledged(up) && AtOnce(s, ack) {
      var step := HandIn(s, chunk, ack, s.clock);
      RetransmittedCanComplete(Next(s, chunk, step), chunk, s.sent + 1, false);
      CompleteAfter(s, chunk, step);
    } else {
      var ack: nat :|
        TwoValues(s) || (Hopeful(s, ack) && 1 <= Hands(s, ack) && BestWindow(s).cwnd + Hands(s, ack) > Beyond(s));
      if InTime(s) {
        OpeningCanComplete(s, chunk, ack);
      } else if s.clock <= Deadline(s) {
        TimedOutCanComplete(s, chunk, ack);
      } else {
        NotInTime(s, ack);
        LateCanComplete(s, chunk, ack);
      }
    }
  }

  lemma NotInTime(s: State, ack: nat)
    requires s.phase.Active? && s.phase.u.up.queue != [] && !InTime(s) && Deadline(s) < s.clock
    requires TwoValues(s) || (Ack(ack) in s.net && 1 <= Spare(s.phase.u.up, ack))
    requires s.phase.u.up.dupAck <= 2
    ensures s.phase.u.up.queue[0].stamp + s.est.rto < s.clock
  {
    var hand := ack;
    if TwoValues(s) {
      var a: nat, b: nat :| a != b && Ack(a) in s.net && Ack(b) in s.net;
      hand := if a == s.phase.u.up.lastAck then b else a;
    }
    assert Hopeful(s, hand);
  }
}
