/**
  Copies of a single acknowledgement, that of the packet before the receiver's newest.

  Each one handed in can widen the window by one, but the third duplicate makes the oldest packet,
  the newest at the receiver, look a timeout older. If that packet was sent or sent again at the very
  moment, one such third duplicate is still too few to time it out, and with a timeout of zero any
  number is. After a timeout everything starts over at a window of one, with what the linear-phase
  counter still holds.
 */
module TransferCopies {
  import opened Wrappers
  import opened Common
  import opened RoundTrip
  import opened CongestionControl
  import opened SentQueue
  import opened Sender
  import opened Receiver
  import opened Transfer
  import opened TransferRuns
  import opened TransferLiveness
  import opened TransferWindow

  // ------------------------------------------------------------------- definitions

  /** What a pass leaves that hands in a copy and then times out. */
  function Spent(w: Window): Window
  {
    OnTimeout(OnAck(w, 0))
  }

  /** The copies short of a third duplicate after one more. */
  function Fewer(spare: int): int
  {
    if spare == 0 then 2 else spare - 1
  }

  /** Right after a timeout, `w` with `n` packets outstanding can be opened by copies. */
  ghost predicate Reopens(w: Window, n: int, spare: int, rto: int)
  {
    !Shut(w, n) && (rto == 0 || n <= spare + 3)
  }

  /** The same, at once or after one or two further timeouts that bring the duplicates to a better
      count. */
  ghost predicate Restarts(w: Window, n: int, spare: int, rto: int)
  {
    || Reopens(w, n, spare, rto)
    || Reopens(Spent(w), n, Fewer(spare), rto)
    || Reopens(Spent(Spent(w)), n, Fewer(Fewer(spare)), rto)
  }

  /** How many copies can be handed in at the current time before the oldest packet times out; with a
      timeout of zero any number, of which `Beyond` is always enough. */
  function Left(s: State, ack: nat): int
    requires s.phase.Active? && s.phase.u.up.queue != []
  {
    var up := s.phase.u.up;
    if s.clock > up.queue[0].stamp then Spare(up, ack)
    else if s.est.rto == 0 then Beyond(s)
    else Spare(up, ack) + 3
  }

  /** A sender that has heard of all packets before the newest gets the window open: before the oldest
      packet times out; or after a timeout without a copy, if the upload outlives it; or after one
      with a copy. */
  ghost predicate CornerOpens(s: State, ack: nat)
    requires s.phase.Active? && s.phase.u.up.queue != []
  {
    var u, n, spare := s.phase.u, Beyond(s), Spare(s.phase.u.up, ack);
    || (s.clock <= u.up.queue[0].stamp + s.est.rto && 1 <= Left(s, ack)
        && !Shut(u.win, n) && u.win.cwnd + Left(s, ack) > n)
    || (TimeoutAt(s) <= Deadline(s) && Restarts(OnTimeout(u.win), n, spare, s.est.rto))
    || Restarts(Spent(u.win), n, Fewer(spare), s.est.rto)
  }

  /** One that has not: the first copy acknowledges packets, gives a sample and resets the duplicates. */
  ghost predicate HeardOpens(s: State, ack: nat)
    requires s.phase.Active? && 1 <= ack - Acknowledged(s.phase.u.up) < |s.phase.u.up.queue|
  {
    var u, n, k := s.phase.u, Beyond(s), ack - Acknowledged(s.phase.u.up);
    var w := OnAck(u.win, k);
    var instant := Infer(s.est, s.clock - u.up.queue[k - 1].stamp).rto == 0;
    || (!Shut(w, n) && (|| w.cwnd + 2 > n
                        || (s.clock <= u.up.queue[k].stamp && (instant || w.cwnd + 5 > n))))
    || (!Shut(OnTimeout(w), n) && (instant || n <= 5))
  }

  /** The copies in flight are enough for a new packet. */
  ghost predicate CopiesOpen(s: State)
    requires s.phase.Active?
  {
    var up := s.phase.u.up;
    && s.sent < MAX_PACKET_PER_CHUNK && up.queue != []
    && exists ack: nat ::
         && Ack(ack) in s.net && ack + 1 == s.down.last && Acknowledged(up) <= ack
         && (if ack == Acknowledged(up) then CornerOpens(s, ack)
             else ack - Acknowledged(up) < |up.queue| && HeardOpens(s, ack))
  }

  // ------------------------------------------------------- what copies cannot do

  /** Two windows of one that differ in the counter only. */
  ghost predicate NoMore(w': Window, w: Window)
  {
    w'.cwnd == 1 && w'.ackCount <= w.ackCount && w == w'.(ackCount := w.ackCount)
  }

  lemma NoMoreOpens(w': Window, w: Window, n: int)
    requires NoMore(w', w) && 1 <= n && !Shut(w', n)
    ensures !Shut(w, n)
  {
  }

  lemma NoMoreSpent(w': Window, w: Window)
    requires NoMore(w', w) && w.policy == CongestionAvoidance
    ensures NoMore(Spent(w'), Spent(w)) && NoMore(Spent(w), w)
  {
  }

  lemma NoMoreRestarts(w': Window, w: Window, n: int, spare: int, rto: int)
    requires NoMore(w', w) && w.policy == CongestionAvoidance && 1 <= n && Restarts(w', n, spare, rto)
    ensures Restarts(w, n, spare, rto)
  {
    hide Shut, Spent, NoMore;
    NoMoreSpent(w', w);
    NoMoreSpent(Spent(w'), Spent(w));
    if !Shut(w', n) {
      NoMoreOpens(w', w, n);
    }
    if !Shut(Spent(w'), n) {
      NoMoreOpens(Spent(w'), Spent(w), n);
    }
    if !Shut(Spent(Spent(w')), n) {
      NoMoreOpens(Spent(Spent(w')), Spent(Spent(w)), n);
    }
  }

  /** A copy that ends in a timeout again brings nothing new. */
  lemma SpentIsNoBetter(w: Window, n: int, spare: int, rto: int)
    requires w.cwnd == 1 && w.policy == CongestionAvoidance && 1 <= n && 0 <= spare <= 3
    requires Restarts(Spent(w), n, Fewer(spare), rto)
    ensures Restarts(w, n, spare, rto)
  {
    hide Shut, Spent, NoMore;
    var w1, w2, w3 := Spent(w), Spent(Spent(w)), Spent(Spent(Spent(w)));
    assert NoMore(w, w) && NoMore(w1, w) && NoMore(w2, w1) && NoMore(w3, w2) by { SpentTwice(w); }
    if !Shut(w3, n) {
      NoMoreOpens(w3, w2, n);
      NoMoreOpens(w2, w1, n);
      NoMoreOpens(w1, w, n);
    }
  }

  lemma SpentTwice(w: Window)
    requires w.cwnd == 1 && w.policy == CongestionAvoidance
    ensures var w1, w2, w3 := Spent(w), Spent(Spent(w)), Spent(Spent(Spent(w)));
            NoMore(w, w) && NoMore(w1, w) && NoMore(w2, w1) && NoMore(w3, w2)
  {
    hide Spent;
    NoMoreSpent(w, w);
    NoMoreSpent(Spent(w), Spent(w));
    NoMoreSpent(Spent(Spent(w)), Spent(Spent(w)));
  }

  /** What it takes to restart at all. */
  lemma RestartsNeeds(w: Window, n: int, spare: int, rto: int)
    requires w.cwnd == 1 && w.policy == CongestionAvoidance && 1 <= n && 0 <= spare <= 3
    requires Restarts(w, n, spare, rto)
    ensures !Shut(w, n) && (rto == 0 || n <= Max(spare, 2) + 3)
  {
    hide Shut, Spent, NoMore;
    SpentTwice(w);
    if !Shut(Spent(w), n) {
      NoMoreOpens(Spent(w), w, n);
    }
    if !Shut(Spent(Spent(w)), n) {
      NoMoreOpens(Spent(Spent(w)), Spent(w), n);
      NoMoreOpens(Spent(w), w, n);
    }
  }

  /** Nor does a second copy without room before the timeout: the wider the window, the more it
      takes from the counter. */
  lemma WiderIsNoBetter(w: Window, n: int, spare: int, rto: int)
    requires Plain(w) && 1 <= w.cwnd <= n && 0 <= spare <= 3
    requires Restarts(Spent(w), n, Fewer(spare), rto)
    ensures Restarts(OnTimeout(w), n, spare, rto)
  {
    hide Restarts, Shut;
    RestartsNeeds(Spent(w), n, Fewer(spare), rto);
    SpentCosts(w, n);
    NoMoreRestarts(Spent(w), Spent(OnTimeout(w)), n, Fewer(spare), rto);
    SpentIsNoBetter(OnTimeout(w), n, spare, rto);
  }

  lemma SpentCosts(w: Window, n: int)
    requires Plain(w) && 1 <= w.cwnd <= n && !Shut(Spent(w), n)
    ensures NoMore(Spent(w), Spent(OnTimeout(w)))
  {
    assert n * (n + 1) >= 2 * n;
  }

  /** Time passes, packets are lost or copied, and the upload stays as it is. */
  ghost predicate Later(s: State, s': State)
  {
    && s'.phase == s.phase && s'.est == s.est && s'.down.last == s.down.last && s'.sent == s.sent
    && s.clock <= s'.clock && forall p :: p in s'.net ==> p in s.net
  }

  lemma CornerWasOpen(s: State, s': State, ack: nat)
    requires s.phase.Active? && s.phase.u.up.queue != [] && Later(s, s') && CornerOpens(s', ack)
    ensures CornerOpens(s, ack)
  {
    hide Restarts, Shut, Spare;
  }

  lemma HeardWasOpen(s: State, s': State, ack: nat)
    requires s.phase.Active? && 1 <= ack - Acknowledged(s.phase.u.up) < |s.phase.u.up.queue|
    requires Later(s, s') && HeardOpens(s', ack) && Sound(s.est) && Timed(s.phase.u.up, s.clock)
    ensures HeardOpens(s, ack)
  {
    hide Shut, Infer, Sound, OnAck;
    var up := s.phase.u.up;
    var k := ack - Acknowledged(up);
    assert up.queue[k - 1].stamp <= s.clock;
    if Infer(s.est, s'.clock - up.queue[k - 1].stamp).rto == 0 {
      QuickerIsZeroToo(s.est, s'.clock - up.queue[k - 1].stamp, s.clock - up.queue[k - 1].stamp);
    }
  }

  /** What is open after a pass at whose end the window is `w`, of size one, and the oldest packet
      was sent again at `tSend`. */
  lemma AfterTimeout(s': State, w: Window, ack: nat, tSend: int)
    requires s'.phase.Active? && s'.phase.u.up.queue != [] && s'.phase.u.up.dupAck <= 2 && CornerOpens(s', ack)
    requires s'.phase.u.win == w && w.cwnd == 1 && w.policy == CongestionAvoidance && 1 <= Beyond(s')
    requires s'.phase.u.up.queue[0].stamp == tSend <= s'.clock
    ensures Restarts(w, Beyond(s'), Spare(s'.phase.u.up, ack), s'.est.rto)
  {
    hide Shut, OnAck;
    var n, spare, rto := Beyond(s'), Spare(s'.phase.u.up, ack), s'.est.rto;
    assert OnTimeout(w) == w;
    if Restarts(Spent(w), n, Fewer(spare), rto) {
      SpentIsNoBetter(w, n, spare, rto);
    }
  }

  /** What is open after a copy that did not end in a timeout and made no room. */
  lemma AfterCopy(s: State, s': State, ack: nat, tSend: int)
    requires s.phase.Active? && s.phase.u.up.queue != [] && s.phase.u.up.dupAck <= 2 && 0 <= s.est.rto
    requires s'.phase.Active? && s'.phase.u.up.queue != [] && CornerOpens(s', ack)
    requires Plain(s.phase.u.win) && 1 <= s.phase.u.win.cwnd
    requires s'.phase.u.win == OnAck(s.phase.u.win, 0) && s'.phase.u.win.cwnd <= Beyond(s)
    requires Spare(s'.phase.u.up, ack) == Fewer(Spare(s.phase.u.up, ack))
    requires s.clock <= tSend <= s'.clock && s.phase.u.up.queue[0].stamp <= s.clock
    requires tSend <= HeadAfter(s.phase.u.up, ack, s.est.rto) + s.est.rto
    requires s'.phase.u.up.queue[0].stamp == HeadAfter(s.phase.u.up, ack, s.est.rto)
    requires s'.est == s.est && s'.down.last == s.down.last && s'.sent == s.sent
    ensures CornerOpens(s, ack)
  {
    hide Shut, OnAck, Restarts;
    var w, w', n, spare := s.phase.u.win, s'.phase.u.win, Beyond(s), Spare(s.phase.u.up, ack);
    AckGrows(w);
    AckLeavesPlain(w, 0);
    if Restarts(Spent(w'), n, Fewer(Fewer(spare)), s.est.rto) {
      WiderIsNoBetter(w', n, Fewer(spare), s.est.rto);
    } else if !Restarts(OnTimeout(w'), n, Fewer(spare), s.est.rto) {
      assert !Shut(w', n) && w'.cwnd + Left(s', ack) > n;
      if Shut(w, n) {
        ShutAfterAck(w, n);
      }
      assert Left(s, ack) >= 1;
    }
  }

  lemma AckLeavesPlain(w: Window, count: nat)
    requires Plain(w) && 1 <= w.cwnd
    ensures Plain(OnAck(w, count)) && 1 <= OnAck(w, count).cwnd
  {
  }

  /** What is open after the first copy, unless the pass sent a new packet. */
  lemma AfterFirstCopy(s: State, s': State, ack: nat, tAck: int, tSend: int)
    requires s.phase.Active? && 1 <= ack - Acknowledged(s.phase.u.up) < |s.phase.u.up.queue|
    requires Sound(s.est) && Timed(s.phase.u.up, s.clock) && Plain(s.phase.u.win) && 1 <= s.phase.u.win.cwnd
    requires s'.phase.Active? && s'.phase.u.up.queue != [] && CornerOpens(s', ack)
    requires s'.phase.u.up.lastAck == ack && s'.phase.u.up.dupAck == 0
    requires s.clock <= tAck <= tSend <= s'.clock && s'.down.last == s.down.last && s'.sent == s.sent && 1 <= Beyond(s)
    requires var up, k := s.phase.u.up, ack - Acknowledged(s.phase.u.up);
             var w := OnAck(s.phase.u.win, k);
             && s'.est == Infer(s.est, tAck - up.queue[k - 1].stamp) && 0 <= s'.est.rto
             && (if tSend > up.queue[k].stamp + s'.est.rto then
                   s'.phase.u.win == OnTimeout(w) && s'.phase.u.up.queue[0].stamp == tSend
                 else
                   s'.phase.u.win == w && w.cwnd <= Beyond(s) && s'.phase.u.up.queue[0].stamp == up.queue[k].stamp)
    ensures HeardOpens(s, ack)
  {
    hide Shut, OnAck, Infer, Sound, Restarts;
    var up, n, k := s.phase.u.up, Beyond(s), ack - Acknowledged(s.phase.u.up);
    var w, rto := OnAck(s.phase.u.win, k), s'.est.rto;
    assert up.queue[k - 1].stamp <= s.clock;
    if rto == 0 {
      QuickerIsZeroToo(s.est, tAck - up.queue[k - 1].stamp, s.clock - up.queue[k - 1].stamp);
    }
    AckLeavesPlain(s.phase.u.win, k);
    if tSend > up.queue[k].stamp + rto {
      AfterTimeout(s', OnTimeout(w), ack, tSend);
      RestartsNeeds(OnTimeout(w), n, 2, rto);
    } else if Restarts(OnTimeout(w), n, 2, rto) {
      RestartsNeeds(OnTimeout(w), n, 2, rto);
    } else if Restarts(Spent(w), n, 1, rto) {
      RestartsNeeds(Spent(w), n, 1, rto);
      if Shut(OnTimeout(w), n) {
        ShutAfterLateAck(w, n);
      }
    }
  }

  // ----------------------------------------------------------------- opening it

  /** Copies handed in at one moment. */
  lemma {:induction false} OpensAtOnce(s: State, chunk: seq<byte>, ack: nat)
    requires |chunk| == BT_CHUNK_SIZE && Live(s, chunk) && Corner(s) && s.phase.u.up.queue != []
    requires Ack(ack) in s.net && ack + 1 == s.down.last && s.sent < MAX_PACKET_PER_CHUNK
    requires s.clock <= s.phase.u.up.queue[0].stamp + s.est.rto && !Shut(s.phase.u.win, Beyond(s))
    requires 1 <= Left(s, ack) && s.phase.u.win.cwnd + Left(s, ack) > Beyond(s)
    ensures CanComplete(s, chunk)
    decreases Max(0, Beyond(s) + 1 - s.phase.u.win.cwnd)
  {
    hide Inv, CanComplete, Shut, OnAck, Next, Noted;
    UpstreamFacts(s, chunk);
    var u, n := s.phase.u, Beyond(s);
    var s' := HandInCopy(s, chunk, ack, s.clock);
    AckGrows(u.win);
    if n < OnAck(u.win, 0).cwnd {
      RetransmittedCanComplete(s', chunk, s.sent + 1, false);
    } else {
      OpensByOne(u.win, n);
      NotedHead(u.up, ack, s.est.rto, s.clock);
      NotedSpares(u.up, ack, s.est.rto, s.clock);
      NotedKeeps(u.up, ack, s.est.rto, s.clock);
      OpensAtOnce(s', chunk, ack);
    }
  }

  /** The moment after a timeout: the oldest packet has just been sent again. */
  ghost predicate JustTimedOut(s: State, chunk: seq<byte>, ack: nat)
    requires |chunk| == BT_CHUNK_SIZE
  {
    && Live(s, chunk) && Corner(s) && s.phase.u.up.queue != []
    && Ack(ack) in s.net && ack + 1 == s.down.last && s.sent < MAX_PACKET_PER_CHUNK
    && s.clock == s.phase.u.up.queue[0].stamp && s.phase.u.win.cwnd == 1
  }

  lemma ReopensCanComplete(s: State, chunk: seq<byte>, ack: nat)
    requires |chunk| == BT_CHUNK_SIZE && JustTimedOut(s, chunk, ack)
    requires Reopens(s.phase.u.win, Beyond(s), Spare(s.phase.u.up, ack), s.est.rto)
    ensures CanComplete(s, chunk)
  {
    hide Inv, CanComplete, Shut;
    UpstreamFacts(s, chunk);
    OpensAtOnce(s, chunk, ack);
  }

  /** A copy handed in so late that the oldest packet times out. */
  lemma HandInLate(s: State, chunk: seq<byte>, ack: nat) returns (s': State)
    requires |chunk| == BT_CHUNK_SIZE && Live(s, chunk) && Corner(s) && s.phase.u.up.queue != []
    requires Ack(ack) in s.net && ack + 1 == s.down.last && s.sent < MAX_PACKET_PER_CHUNK
    ensures JustTimedOut(s', chunk, ack) && (CanComplete(s', chunk) ==> CanComplete(s, chunk))
    ensures Beyond(s') == Beyond(s) && s'.est == s.est && s'.phase.u.win == Spent(s.phase.u.win)
    ensures Spare(s'.phase.u.up, ack) == Fewer(Spare(s.phase.u.up, ack))
  {
    hide Inv, CanComplete, OnAck, Noted;
    UpstreamFacts(s, chunk);
    var up := s.phase.u.up;
    var t := TimeoutAt(s);
    s' := HandInCopy(s, chunk, ack, t);
    NotedHead(up, ack, s.est.rto, t);
    NotedSpares(up, ack, s.est.rto, t);
    NotedKeeps(up, ack, s.est.rto, t);
    RestampedKeeps(Noted(up, ack, s.est.rto, t), t, ack);
  }

  lemma RestartsCanComplete(s: State, chunk: seq<byte>, ack: nat)
    requires |chunk| == BT_CHUNK_SIZE && JustTimedOut(s, chunk, ack)
    requires Restarts(s.phase.u.win, Beyond(s), Spare(s.phase.u.up, ack), s.est.rto)
    ensures CanComplete(s, chunk)
  {
    hide Inv, CanComplete, Reopens, Spent;
    if Reopens(s.phase.u.win, Beyond(s), Spare(s.phase.u.up, ack), s.est.rto) {
      ReopensCanComplete(s, chunk, ack);
    } else {
      var s1 := HandInLate(s, chunk, ack);
      if Reopens(s1.phase.u.win, Beyond(s), Spare(s1.phase.u.up, ack), s.est.rto) {
        ReopensCanComplete(s1, chunk, ack);
      } else {
        var s2 := HandInLate(s1, chunk, ack);
        ReopensCanComplete(s2, chunk, ack);
      }
    }
  }

  lemma CornerOpensCanComplete(s: State, chunk: seq<byte>, ack: nat)
    requires |chunk| == BT_CHUNK_SIZE && Live(s, chunk) && Corner(s) && s.phase.u.up.queue != []
    requires Ack(ack) in s.net && ack + 1 == s.down.last && s.sent < MAX_PACKET_PER_CHUNK && CornerOpens(s, ack)
    ensures CanComplete(s, chunk)
  {
    hide Inv, CanComplete, Shut, Restarts, Send, Next, Left;
    var u := s.phase.u;
    if Restarts(Spent(u.win), Beyond(s), Fewer(Spare(u.up, ack)), s.est.rto) {
      var s' := HandInLate(s, chunk, ack);
      RestartsCanComplete(s', chunk, ack);
    } else if TimeoutAt(s) <= Deadline(s) && Restarts(OnTimeout(u.win), Beyond(s), Spare(u.up, ack), s.est.rto) {
      UpstreamFacts(s, chunk);
      var step := TimeoutPass(s, chunk);
      QuietPassIs(s, chunk, step);
      SendIs(u, chunk, TimeoutAt(s), s.est.rto, s.sent, s.atTimeout);
      StepKeepsInv(s, chunk, step);
      RestampedKeeps(u.up, TimeoutAt(s), ack);
      RestartsCanComplete(Next(s, chunk, step), chunk, ack);
      CompleteAfter(s, chunk, step);
    } else {
      OpensAtOnce(s, chunk, ack);
    }
  }

  // ---------------------------------------------------------------- the first copy

  /** The first copy, handed in without a timeout. */
  lemma HeardInTime(s: State, chunk: seq<byte>, ack: nat, t: int)
    requires |chunk| == BT_CHUNK_SIZE && Live(s, chunk) && Ack(ack) in s.net && ack + 1 == s.down.last
    requires forall a: nat :: Ack(a) in s.net ==> a < s.down.last
    requires s.sent < MAX_PACKET_PER_CHUNK && s.clock <= t
    requires 1 <= ack - Acknowledged(s.phase.u.up) < |s.phase.u.up.queue|
    requires var u, n, k := s.phase.u, Beyond(s), ack - Acknowledged(s.phase.u.up);
             var w, rto := OnAck(u.win, k), Infer(s.est, t - u.up.queue[k - 1].stamp).rto;
             && !Shut(w, n) && t <= u.up.queue[k].stamp + rto
             && (w.cwnd + 2 > n || (t <= u.up.queue[k].stamp && (rto == 0 || w.cwnd + 5 > n)))
    ensures CanComplete(s, chunk)
  {
    hide Inv, CanComplete, Shut, OnAck, Infer, Next;
    UpstreamFacts(s, chunk);
    FirstTimeoutIsNatural(s, chunk, ack, t);
    var u, n, k := s.phase.u, Beyond(s), ack - Acknowledged(s.phase.u.up);
    var s' := HearCopy(s, chunk, ack, t, t);
    if n < OnAck(u.win, k).cwnd {
      RetransmittedCanComplete(s', chunk, s.sent + 1, false);
    } else {
      UpstreamFacts(s', chunk);
      OpensAtOnce(s', chunk, ack);
    }
  }

  /** The first copy, handed in at `tAck` in a pass in which the newest packet times out. */
  lemma HeardLate(s: State, chunk: seq<byte>, ack: nat, tAck: int, tSend: int)
    requires |chunk| == BT_CHUNK_SIZE && Live(s, chunk) && Ack(ack) in s.net && ack + 1 == s.down.last
    requires forall a: nat :: Ack(a) in s.net ==> a < s.down.last
    requires s.sent < MAX_PACKET_PER_CHUNK && 1 <= ack - Acknowledged(s.phase.u.up) < |s.phase.u.up.queue|
    requires s.clock <= tAck <= tSend
    requires var u, n, k := s.phase.u, Beyond(s), ack - Acknowledged(s.phase.u.up);
             var w, rto := OnAck(u.win, k), Infer(s.est, tAck - u.up.queue[k - 1].stamp).rto;
             && !Shut(OnTimeout(w), n) && (rto == 0 || n <= 5)
             && u.up.queue[k].stamp + rto < tSend <= tAck + ABORT_COEFF * rto
    ensures CanComplete(s, chunk)
  {
    hide Inv, CanComplete, Shut, OnAck, Infer, Next;
    UpstreamFacts(s, chunk);
    var k := ack - Acknowledged(s.phase.u.up);
    var s' := HearCopy(s, chunk, ack, tAck, tSend);
    RestampedKeeps(Cleared(s.phase.u.up, ack, tAck), tSend, ack);
    ReopensCanComplete(s', chunk, ack);
  }

  lemma HeardOpensCanComplete(s: State, chunk: seq<byte>, ack: nat)
    requires |chunk| == BT_CHUNK_SIZE && Live(s, chunk) && Ack(ack) in s.net && ack + 1 == s.down.last
    requires forall a: nat :: Ack(a) in s.net ==> a < s.down.last
    requires s.sent < MAX_PACKET_PER_CHUNK && 1 <= ack - Acknowledged(s.phase.u.up) < |s.phase.u.up.queue|
    requires HeardOpens(s, ack)
    ensures CanComplete(s, chunk)
  {
    hide Inv, CanComplete, Shut, OnAck, Infer, Next;
    UpstreamFacts(s, chunk);
    FirstTimeoutIsNatural(s, chunk, ack, s.clock);
    var u, n, k := s.phase.u, Beyond(s), ack - Acknowledged(s.phase.u.up);
    var w, instant := OnAck(u.win, k), Infer(s.est, s.clock - u.up.queue[k - 1].stamp).rto == 0;
    if !Shut(w, n) && w.cwnd + 2 > n {
      EstimateIsSound(s, chunk);
      LongWaitIsLong(s);
      HeardInTime(s, chunk, ack, LongWait(s));
    } else if !Shut(w, n) && s.clock <= u.up.queue[k].stamp && (instant || w.cwnd + 5 > n) {
      HeardInTime(s, chunk, ack, s.clock);
    } else if instant {
      if Shut(w, n) {
        ShutAfterTimeout(w, n);
      }
      HeardLate(s, chunk, ack, s.clock, s.clock);
    } else {
      var tAck := s.clock + 7;
      FirstTimeoutIsNatural(s, chunk, ack, tAck);
      var rto := Infer(s.est, tAck - u.up.queue[k - 1].stamp).rto;
      HeardLate(s, chunk, ack, tAck, Max(tAck, u.up.queue[k].stamp + rto + 1));
    }
  }

  lemma CopiesOpenCanComplete(s: State, chunk: seq<byte>)
    requires |chunk| == BT_CHUNK_SIZE && Live(s, chunk) && CopiesOpen(s)
    requires forall ack: nat :: Ack(ack) in s.net ==> ack < s.down.last
    ensures CanComplete(s, chunk)
  {
    hide Inv, CanComplete, CornerOpens, HeardOpens;
    var ack: nat :|
      && Ack(ack) in s.net && ack + 1 == s.down.last && Acknowledged(s.phase.u.up) <= ack
      && (if ack == Acknowledged(s.phase.u.up) then CornerOpens(s, ack)
          else ack - Acknowledged(s.phase.u.up) < |s.phase.u.up.queue| && HeardOpens(s, ack));
    if ack == Acknowledged(s.phase.u.up) {
      CornerOpensCanComplete(s, chunk, ack);
    } else {
      HeardOpensCanComplete(s, chunk, ack);
    }
  }
}
