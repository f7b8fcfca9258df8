/**
  Runs from the very start: the good one, step by step, and one into each of the failures that
  `TransferRuns` and `TransferVerdict` characterise.
 */
module TransferReach {
  import opened Wrappers
  import opened Common
  import opened RoundTrip
  import opened CongestionControl
  import opened SentQueue
  import opened Sender
  import opened Receiver
  import opened Transfer
  import opened TransferRuns
  import opened TransferLiveness
  import opened TransferWindow
  import opened TransferCopies
  import opened TransferVerdict
  import opened TransferPatience

  /** The last reading that a step makes. */
  function Reading(clock: int, step: Step): int
  {
    match step
    case Pass(_, _, _, tClean) => tClean
    case Deliver(_, _, now) => now
    case Look(now) => now
    case Sample(_, _) => clock
    case Lose(_) => clock
    case Duplicate(_) => clock
  }

  /** At every step neither side would have given the other up. */
  ghost predicate Punctual(s: State, chunk: seq<byte>, steps: seq<Step>)
    requires |chunk| == BT_CHUNK_SIZE
    decreases |steps|
  {
    steps == [] ||
    (var t := Reading(s.clock, steps[0]);
     && (s.phase.Active? ==> t <= Deadline(s))
     && (s.down.status == Running ==> t - s.downTime <= ABORT_COEFF * s.downEst.rto)
     && Punctual(Next(s, chunk, steps[0]), chunk, steps[1..]))
  }

  /** A run that leads from `s` to `s'` without other uploads and without a side near giving up. */
  ghost predicate Leads(s: State, chunk: seq<byte>, steps: seq<Step>, s': State)
    requires |chunk| == BT_CHUNK_SIZE
  {
    Lone(steps) && Possible(s, chunk, steps) && Punctual(s, chunk, steps) && Run(s, chunk, steps) == s'
  }

  lemma LeadsByOne(s: State, chunk: seq<byte>, step: Step)
    requires |chunk| == BT_CHUNK_SIZE && Enabled(s, step) && !step.Sample?
    requires s.phase.Active? ==> Reading(s.clock, step) <= Deadline(s)
    requires s.down.status == Running ==> Reading(s.clock, step) - s.downTime <= ABORT_COEFF * s.downEst.rto
    ensures Leads(s, chunk, [step], Next(s, chunk, step))
  {
    hide Enabled, Next, Deadline;
    var none: seq<Step> := [];
    assert [step][1..] == none;
    assert Punctual(Next(s, chunk, step), chunk, none) && Possible(Next(s, chunk, step), chunk, none);
    assert Run(Next(s, chunk, step), chunk, none) == Next(s, chunk, step);
  }

  lemma {:induction false} LeadsOn(s: State, chunk: seq<byte>, a: seq<Step>, mid: State, b: seq<Step>, s': State)
    requires |chunk| == BT_CHUNK_SIZE && Leads(s, chunk, a, mid) && Leads(mid, chunk, b, s')
    ensures Leads(s, chunk, a + b, s')
    decreases |a|
  {
    hide Enabled, Next, Deadline;
    if a == [] {
      assert a + b == b;
    } else {
      assert (a + b)[1..] == a[1..] + b;
      assert Lone(a[1..]);
      LeadsOn(Next(s, chunk, a[0]), chunk, a[1..], mid, b, s');
    }
  }

  // ------------------------------------------------------------ one at a time

  /** An upload in slow start whose only outstanding packet is `k`, sent at time `t`. */
  function SendingOnly(k: nat, t: int): Upstream
    requires 1 <= k
  {
    Upstream(Upload([Sent(k, t)], Some(k), 1, k - 1, 0, t), Window(SlowStart, k, k, 0))
  }

  ghost predicate Steadily(s: State, chunk: seq<byte>, k: nat)
    requires |chunk| == BT_CHUNK_SIZE
  {
    && Inv(s, chunk)
    && 1 <= k && s.sent == k
    && s.phase == Active(SendingOnly(k, s.clock))
    && Sound(s.est) && s.est.rtt == INITIAL.rtt
    && s.downEst == INITIAL
    && s.downTime <= s.clock <= s.downTime + INITIAL.rtt
  }

  /** Packet `k` is the next at the receiver and in flight, besides `extra`. */
  ghost predicate Outbound(s: State, chunk: seq<byte>, k: nat, extra: multiset<Packet>)
    requires |chunk| == BT_CHUNK_SIZE
  {
    && Steadily(s, chunk, k) && k <= MAX_PACKET_PER_CHUNK
    && s.down.status == Running && s.down.last == k - 1 == |s.down.log|
    && s.net == extra + multiset{Data(k, Slice(chunk, k))}
  }

  /** Packet `k` has been taken, and its acknowledgement is in flight besides `extra`. */
  ghost predicate Answered(s: State, chunk: seq<byte>, k: nat, extra: multiset<Packet>)
    requires |chunk| == BT_CHUNK_SIZE
  {
    && Steadily(s, chunk, k) && k <= MAX_PACKET_PER_CHUNK
    && s.down.status == (if k == MAX_PACKET_PER_CHUNK then Complete else Running)
    && s.down.last == k == |s.down.log| && s.downTime == s.clock
    && s.net == extra + multiset{Ack(k)}
  }

  lemma SendsFirst(chunk: seq<byte>, now: int) returns (steps: seq<Step>, s: State)
    requires |chunk| == BT_CHUNK_SIZE
    ensures Leads(Initial(now), chunk, steps, s) && Outbound(s, chunk, 1, multiset{})
  {
    hide Inv, Slice, Sound;
    var step := Pass(None, now, now, now);
    InitialInv(chunk, now);
    StepKeepsInv(Initial(now), chunk, step);
    assert Sound(INITIAL) by { InitialSound(); }
    s := Next(Initial(now), chunk, step);
    steps := [step];
    LeadsByOne(Initial(now), chunk, step);
  }

  lemma InitialSound()
    ensures Sound(INITIAL)
  {
  }

  lemma Arrives(s: State, chunk: seq<byte>, k: nat, extra: multiset<Packet>) returns (steps: seq<Step>, s': State)
    requires |chunk| == BT_CHUNK_SIZE && Outbound(s, chunk, k, extra)
    ensures Leads(s, chunk, steps, s') && Answered(s', chunk, k, extra)
  {
    hide Inv, Slice, Slices, Sound;
    var step := Deliver(k, Slice(chunk, k), s.clock);
    assert s.net - multiset{Data(k, Slice(chunk, k))} == extra;
    SoundTimeout(s.est);
    SoundTimeout(INITIAL) by { InitialSound(); }
    ArrivalEffect(s, chunk, k, extra);
    s' := Next(s, chunk, step);
    steps := [step];
    LeadsByOne(s, chunk, step);
  }

  lemma ArrivalEffect(s: State, chunk: seq<byte>, k: nat, extra: multiset<Packet>)
    requires |chunk| == BT_CHUNK_SIZE && Outbound(s, chunk, k, extra)
    ensures Answered(Next(s, chunk, Deliver(k, Slice(chunk, k), s.clock)), chunk, k, extra)
  {
    hide Inv, Slice, Slices, Sound, Faithful;
    assert s.net - multiset{Data(k, Slice(chunk, k))} == extra;
    AcceptNext(s, chunk);
  }

  lemma PopOnly(k: nat, t: int, est: Estimator, now: int)
    requires 1 <= k
    ensures Pop([Sent(k, t)], 0, est, k, now) == Popped(1, Infer(est, now - t))
  {
    hide Infer;
    var q := [Sent(k, t)];
    assert Pop(q, 1, Infer(est, now - t), k, now) == Popped(1, Infer(est, now - t));
  }

  /** A sample equal to the estimate leaves the estimate. */
  lemma EqualSample(e: Estimator)
    requires Sound(e)
    ensures var r := Infer(e, e.rtt); Sound(r) && r.rtt == e.rtt <= r.rto
  {
  }

  lemma HeardOnly(k: nat, t: int, est: Estimator, now: int)
    requires 1 <= k < MAX_PACKET_PER_CHUNK
    ensures Acknowledge(SendingOnly(k, t).up, est, k, now).est == Infer(est, now - t)
    ensures OnAckPacket(SendingOnly(k, t), est, k, now)
            == Continues(Upstream(Upload([], Some(k), 0, k, 0, now), Window(SlowStart, k + 1, k + 1, 0)))
  {
    hide Pop, Infer;
    PopOnly(k, t, est, now);
  }

  /** One round trip after it was sent, packet `k` is acknowledged and the next one follows. */
  lemma Returns(s: State, chunk: seq<byte>, k: nat, extra: multiset<Packet>) returns (steps: seq<Step>, s': State)
    requires |chunk| == BT_CHUNK_SIZE && Answered(s, chunk, k, extra) && k < MAX_PACKET_PER_CHUNK
    ensures Leads(s, chunk, steps, s') && Outbound(s', chunk, k + 1, extra)
  {
    hide Inv, Slice, Sound, Infer, Pop, Acknowledge, OnAckPacket;
    var t := s.clock + INITIAL.rtt;
    var step := Pass(Some(k), t, t, t);
    HeardOnly(k, s.clock, s.est, t);
    EqualSample(s.est);
    assert s.net - multiset{Ack(k)} == extra;
    StepKeepsInv(s, chunk, step);
    s' := Next(s, chunk, step);
    steps := [step];
    assert s.est.rtt <= s.est.rto by { SoundAbove(s.est); }
    LeadsByOne(s, chunk, step);
  }

  lemma SoundAbove(e: Estimator)
    requires Sound(e)
    ensures 0 <= e.rtt <= e.rto
  {
  }

  lemma {:induction false} OneByOne(s: State, chunk: seq<byte>, k: nat, n: nat, extra: multiset<Packet>)
    returns (steps: seq<Step>, s': State)
    requires |chunk| == BT_CHUNK_SIZE && Outbound(s, chunk, k, extra) && k <= n <= MAX_PACKET_PER_CHUNK
    ensures Leads(s, chunk, steps, s') && Outbound(s', chunk, n, extra)
    decreases n - k
  {
    hide Outbound, Answered, Leads;
    if k == n {
      steps, s' := [], s;
      Stays(s, chunk);
    } else {
      var a, answered := Arrives(s, chunk, k, extra);
      var b, sent := Returns(answered, chunk, k, extra);
      LeadsOn(s, chunk, a, answered, b, sent);
      steps, s' := OneByOne(sent, chunk, k + 1, n, extra);
      LeadsOn(s, chunk, a + b, sent, steps, s');
      steps := a + b + steps;
    }
  }

  lemma Stays(s: State, chunk: seq<byte>)
    requires |chunk| == BT_CHUNK_SIZE
    ensures Leads(s, chunk, [], s)
  {
  }

  /** From the GET on, packets 1 to `n` one by one. */
  lemma FromStart(chunk: seq<byte>, now: int, n: nat) returns (steps: seq<Step>, s: State)
    requires |chunk| == BT_CHUNK_SIZE && 1 <= n <= MAX_PACKET_PER_CHUNK
    ensures Leads(Initial(now), chunk, steps, s) && Outbound(s, chunk, n, multiset{})
  {
    hide Outbound, Leads;
    var a, first := SendsFirst(chunk, now);
    steps, s := OneByOne(first, chunk, 1, n, multiset{});
    LeadsOn(Initial(now), chunk, a, first, steps, s);
    steps := a + steps;
  }

  lemma FromStartAnswered(chunk: seq<byte>, now: int, n: nat) returns (steps: seq<Step>, s: State)
    requires |chunk| == BT_CHUNK_SIZE && 1 <= n <= MAX_PACKET_PER_CHUNK
    ensures Leads(Initial(now), chunk, steps, s) && Answered(s, chunk, n, multiset{})
  {
    hide Outbound, Leads, Answered;
    var a, sent := FromStart(chunk, now, n);
    steps, s := Arrives(sent, chunk, n, multiset{});
    LeadsOn(Initial(now), chunk, a, sent, steps, s);
    steps := a + steps;
  }

  /** Every transfer can finish on both sides, with the estimators the two processes start with,
      one round trip of the initial estimate per packet, and neither side near giving up. */
  lemma FreshTransferCanComplete(chunk: seq<byte>, now: int) returns (steps: seq<Step>)
    requires |chunk| == BT_CHUNK_SIZE
    ensures Lone(steps) && Possible(Initial(now), chunk, steps) && Punctual(Initial(now), chunk, steps)
    ensures var s := Run(Initial(now), chunk, steps);
            s.down.status == Complete && s.down.bytes == chunk && s.phase == Closed(true) && s.net == multiset{}
  {
    hide Inv, Slices, Next, Enabled, UpTo;
    var a, s := FromStartAnswered(chunk, now, MAX_PACKET_PER_CHUNK);
    LastAckCloses(s, chunk);
    var step := Pass(Some(MAX_PACKET_PER_CHUNK), s.clock, s.clock, s.clock);
    ClosingLeavesRest(s, chunk);
    StepKeepsInv(s, chunk, step);
    SoundTimeout(s.est);
    SoundTimeout(s.downEst) by { InitialSound(); }
    LeadsByOne(s, chunk, step);
    LeadsOn(Initial(now), chunk, a, s, [step], Next(s, chunk, step));
    CompleteBytes(Next(s, chunk, step), chunk);
    steps := a + [step];
  }

  lemma CompleteBytes(s: State, chunk: seq<byte>)
    requires |chunk| == BT_CHUNK_SIZE && Inv(s, chunk) && s.down.status == Complete
    ensures s.down.bytes == chunk
  {
    FaithfulMeans(s.down, chunk);
  }

  lemma ClosingLeavesRest(s: State, chunk: seq<byte>)
    requires |chunk| == BT_CHUNK_SIZE && s.phase.Active? && s.net == multiset{Ack(MAX_PACKET_PER_CHUNK)}
    ensures var s' := Next(s, chunk, Pass(Some(MAX_PACKET_PER_CHUNK), s.clock, s.clock, s.clock));
            s'.phase == Closed(true) ==> s'.net == multiset{} && s'.down == s.down
  {
    hide OnAckPacket, Acknowledge, Send, TimedOut;
  }

  // ------------------------------------------------------------- into the failures

  lemma Loses(s: State, chunk: seq<byte>, p: Packet) returns (steps: seq<Step>, s': State)
    requires |chunk| == BT_CHUNK_SIZE && Inv(s, chunk) && p in s.net
    requires s.phase.Active? ==> s.clock <= Deadline(s)
    requires s.down.status == Running ==> s.clock - s.downTime <= ABORT_COEFF * s.downEst.rto
    ensures Leads(s, chunk, steps, s') && Inv(s', chunk) && s' == s.(net := s.net - multiset{p})
  {
    hide Inv, Deadline;
    steps, s' := [Lose(p)], Next(s, chunk, Lose(p));
    StepKeepsInv(s, chunk, Lose(p));
    LeadsByOne(s, chunk, Lose(p));
  }

  lemma SteadilyPunctual(s: State, chunk: seq<byte>, k: nat)
    requires |chunk| == BT_CHUNK_SIZE && Steadily(s, chunk, k)
    ensures s.clock <= Deadline(s) && s.clock - s.downTime <= ABORT_COEFF * s.downEst.rto
  {
  }

  /** The last acknowledgement is lost: the chunk is complete and no run closes the upload by it. */
  lemma LostLastAckRun(chunk: seq<byte>, now: int) returns (steps: seq<Step>)
    requires |chunk| == BT_CHUNK_SIZE
    ensures Possible(Initial(now), chunk, steps) && Punctual(Initial(now), chunk, steps)
    ensures var s := Run(Initial(now), chunk, steps);
            s.down.status == Complete && s.phase.Active? && !CanClose(s, chunk)
  {
    hide Inv, CanClose, Next;
    var a, s := FromStartAnswered(chunk, now, MAX_PACKET_PER_CHUNK);
    SteadilyPunctual(s, chunk, MAX_PACKET_PER_CHUNK);
    var b, lost := Loses(s, chunk, Ack(MAX_PACKET_PER_CHUNK));
    LeadsOn(Initial(now), chunk, a, s, b, lost);
    ClosableIff(lost, chunk);
    steps := a + b;
  }

  /** The acknowledgement of packet 1 is lost: nothing is in flight, and whatever follows the chunk
      cannot be completed. The retransmission is appended a second time. */
  lemma RepeatRun(chunk: seq<byte>, now: int) returns (steps: seq<Step>, more: seq<Step>)
    requires |chunk| == BT_CHUNK_SIZE
    ensures Possible(Initial(now), chunk, steps + more) && Possible(Initial(now), chunk, steps)
    ensures var s := Run(Initial(now), chunk, steps);
            Live(s, chunk) && s.net == multiset{} && !CanComplete(s, chunk)
    ensures HasRepeat(Run(Initial(now), chunk, steps + more).down.log)
  {
    hide CanComplete, Next, Enabled, Inv;
    var a, s := FromStartAnswered(chunk, now, 1);
    SteadilyPunctual(s, chunk, 1);
    var b, lost := Loses(s, chunk, Ack(1));
    LeadsOn(Initial(now), chunk, a, s, b, lost);
    SilentIsDecided(lost);
    CompletableIff(lost, chunk);
    steps := a + b;

    var late := TimeoutPass(lost, chunk);
    var again := Next(lost, chunk, late);
    StepKeepsInv(lost, chunk, late);
    var deliver := Deliver(1, Slice(chunk, 1), again.clock);
    NewestRepeats(again, chunk, 1);
    var none: seq<Step> := [];
    assert Run(Next(again, chunk, deliver), chunk, none) == Next(again, chunk, deliver);
    Prepend(again, chunk, deliver, none);
    Prepend(lost, chunk, late, [deliver] + none);
    more := [late] + ([deliver] + none);
    RunsOn(Initial(now), chunk, steps, more);
  }

  /** ACK 1 is copied; packet 2 times out once and is taken, and ACK 2 is lost. An acknowledgement is
      still in flight that does not stop the sender, but it leaves packet 2 as the oldest, and no room
      for a third. */
  lemma StaleRun(chunk: seq<byte>, now: int) returns (steps: seq<Step>)
    requires |chunk| == BT_CHUNK_SIZE
    ensures Possible(Initial(now), chunk, steps)
    ensures var s := Run(Initial(now), chunk, steps);
            Live(s, chunk) && Hopeful(s, 1) && !CanComplete(s, chunk)
  {
    hide CanComplete, Next, Inv, Leads, Possible, Run;
    var s0 := Initial(now);
    var a, answered := FromStartAnswered(chunk, now, 1);
    var b, copied := Copies(answered, chunk, 1, multiset{});
    LeadsOn(s0, chunk, a, answered, b, copied);
    var c, sent := Returns(copied, chunk, 1, multiset{} + multiset{Ack(1)});
    LeadsOn(s0, chunk, a + b, copied, c, sent);
    LeadsIsRun(s0, chunk, a + b + c, sent);
    var more := StaleEnd(sent, chunk);
    RunsOn(s0, chunk, a + b + c, more);
    steps := a + b + c + more;
  }

  lemma StaleEnd(s: State, chunk: seq<byte>) returns (steps: seq<Step>)
    requires |chunk| == BT_CHUNK_SIZE && Outbound(s, chunk, 2, multiset{Ack(1)})
    ensures Possible(s, chunk, steps)
    ensures var s' := Run(s, chunk, steps); Live(s', chunk) && Hopeful(s', 1) && !CanComplete(s', chunk)
  {
    hide CanComplete, Next, Inv, Slice;
    var p := Data(2, Slice(chunk, 2));
    var s1 := Next(s, chunk, Lose(p));
    var late, deliver, s2, s3 := PacketTwoAgain(s, chunk);
    var s4 := Next(s3, chunk, Lose(Ack(2)));
    StaleIsLost(s3, s4, chunk);
    var none: seq<Step> := [];
    assert Run(s4, chunk, none) == s4;
    Prepend(s3, chunk, Lose(Ack(2)), none);
    Prepend(s2, chunk, deliver, [Lose(Ack(2))] + none);
    Prepend(s1, chunk, late, [deliver] + ([Lose(Ack(2))] + none));
    steps := [Lose(p)] + ([late] + ([deliver] + ([Lose(Ack(2))] + none)));
    Prepend(s, chunk, Lose(p), [late] + ([deliver] + ([Lose(Ack(2))] + none)));
  }

  /** Packet 2 is sent, lost, sent again after a timeout, and taken. */
  ghost predicate TakenAgain(s: State, chunk: seq<byte>)
    requires |chunk| == BT_CHUNK_SIZE
  {
    && Live(s, chunk) && s.sent == 2 == s.down.last
    && |s.phase.u.up.queue| == s.phase.u.up.size == 1 && Acknowledged(s.phase.u.up) == 1
    && s.phase.u.up.dupAck == 0 && s.phase.u.win == Window(CongestionAvoidance, 1, 2, 0)
    && s.net == multiset{Ack(1), Ack(2)}
  }

  lemma PacketTwoAgain(s: State, chunk: seq<byte>) returns (late: Step, deliver: Step, s2: State, s3: State)
    requires |chunk| == BT_CHUNK_SIZE && Outbound(s, chunk, 2, multiset{Ack(1)})
    ensures var p := Data(2, Slice(chunk, 2));
            var s1 := Next(s, chunk, Lose(p));
            && Enabled(s, Lose(p)) && Enabled(s1, late) && s2 == Next(s1, chunk, late)
            && Enabled(s2, deliver) && s3 == Next(s2, chunk, deliver) && TakenAgain(s3, chunk)
  {
    hide Inv, Slice, Next, Send, Sound;
    var p := Data(2, Slice(chunk, 2));
    var s1 := Next(s, chunk, Lose(p));
    LosingKeeps(s, chunk, p);
    StepKeepsInv(s, chunk, Lose(p));
    assert s.net - multiset{p} == multiset{Ack(1)};
    SoundAbove(s.est);
    late := TimeoutPass(s1, chunk);
    UpstreamFacts(s1, chunk);
    QuietPassIs(s1, chunk, late);
    SendIs(s1.phase.u, chunk, TimeoutAt(s1), s1.est.rto, s1.sent, s1.atTimeout);
    s2 := Next(s1, chunk, late);
    StepKeepsInv(s1, chunk, late);
    deliver := Deliver(2, Slice(chunk, 2), s2.clock);
    AcceptNext(s2, chunk);
    DeliveredNet(s2, chunk, 2);
    s3 := Next(s2, chunk, deliver);
  }

  lemma LosingKeeps(s: State, chunk: seq<byte>, p: Packet)
    requires |chunk| == BT_CHUNK_SIZE
    ensures Next(s, chunk, Lose(p)) == s.(net := s.net - multiset{p})
  {
  }

  lemma DeliveredNet(s: State, chunk: seq<byte>, num: nat)
    requires |chunk| == BT_CHUNK_SIZE && s.down.status == Running && 1 <= num <= MAX_PACKET_PER_CHUNK
    requires num == s.down.last + 1
    ensures var s' := Next(s, chunk, Deliver(num, Slice(chunk, num), s.clock));
            && s'.net == s.net - multiset{Data(num, Slice(chunk, num))} + multiset{Ack(num)} && s'.sent == s.sent
  {
    hide Slice;
  }

  lemma StaleIsLost(s: State, s': State, chunk: seq<byte>)
    requires |chunk| == BT_CHUNK_SIZE && TakenAgain(s, chunk) && s' == Next(s, chunk, Lose(Ack(2)))
    ensures Enabled(s, Lose(Ack(2))) && Live(s', chunk) && Hopeful(s', 1) && !CanComplete(s', chunk)
  {
    hide CanComplete, Next, Inv, Shut, InTime;
    LosingKeeps(s, chunk, Ack(2));
    StepKeepsInv(s, chunk, Lose(Ack(2)));
    assert s'.net == multiset{Ack(1)};
    NoRoomNoRecovery(s');
    ShutWithoutCounter(BestWindow(s'), 1);
    CompletableIff(s', chunk);
  }

  lemma NewestRepeats(s: State, chunk: seq<byte>, k: nat)
    requires |chunk| == BT_CHUNK_SIZE && Inv(s, chunk) && s.down.status == Running && s.down.last == k
    requires 1 <= k <= MAX_PACKET_PER_CHUNK && Data(k, Slice(chunk, k)) in s.net
    ensures var step := Deliver(k, Slice(chunk, k), s.clock);
            Enabled(s, step) && HasRepeat(Next(s, chunk, step).down.log)
  {
    hide PhaseOk, PacketOk, TimesOk, Faithful, HasRepeat, OnData;
    DeliveredLog(s.down, chunk, k);
  }

  lemma {:induction false} RunsOn(s: State, chunk: seq<byte>, a: seq<Step>, b: seq<Step>)
    requires |chunk| == BT_CHUNK_SIZE && Possible(s, chunk, a) && Possible(Run(s, chunk, a), chunk, b)
    ensures Possible(s, chunk, a + b) && Run(s, chunk, a + b) == Run(Run(s, chunk, a), chunk, b)
    decreases |a|
  {
    hide Enabled, Next;
    if a == [] {
      assert a + b == b;
    } else {
      assert (a + b)[1..] == a[1..] + b;
      RunsOn(Next(s, chunk, a[0]), chunk, a[1..], b);
    }
  }

  lemma Copies(s: State, chunk: seq<byte>, k: nat, extra: multiset<Packet>) returns (steps: seq<Step>, s': State)
    requires |chunk| == BT_CHUNK_SIZE && Answered(s, chunk, k, extra)
    ensures Leads(s, chunk, steps, s') && Answered(s', chunk, k, extra + multiset{Ack(k)})
  {
    hide Inv;
    SteadilyPunctual(s, chunk, k);
    steps, s' := [Duplicate(Ack(k))], Next(s, chunk, Duplicate(Ack(k)));
    StepKeepsInv(s, chunk, Duplicate(Ack(k)));
    LeadsByOne(s, chunk, Duplicate(Ack(k)));
  }

  /** The network makes four copies of ACK 1, which reach the sender after ACK 2: it stops. */
  lemma ExitRun(chunk: seq<byte>, now: int) returns (steps: seq<Step>)
    requires |chunk| == BT_CHUNK_SIZE
    ensures Possible(Initial(now), chunk, steps)
    ensures Run(Initial(now), chunk, steps).phase == Crashed(ErrorExit)
  {
    hide Inv, Leads, Answered, Outbound, Possible, Run;
    var stale := multiset{} + multiset{Ack(1)} + multiset{Ack(1)} + multiset{Ack(1)} + multiset{Ack(1)};
    var s0 := Initial(now);
    var a, s := FromStartAnswered(chunk, now, 1);
    steps := a;
    for i := 0 to 4
      invariant Leads(s0, chunk, steps, s)
      invariant exists extra :: Answered(s, chunk, 1, extra) && extra[Ack(1)] == i
    {
      var extra :| Answered(s, chunk, 1, extra) && extra[Ack(1)] == i;
      var b, copied := Copies(s, chunk, 1, extra);
      assert (extra + multiset{Ack(1)})[Ack(1)] == i + 1;
      LeadsOn(s0, chunk, steps, s, b, copied);
      steps, s := steps + b, copied;
    }
    var extra :| Answered(s, chunk, 1, extra) && extra[Ack(1)] == 4;
    var c, second := Returns(s, chunk, 1, extra);
    LeadsOn(s0, chunk, steps, s, c, second);
    var d, third := OneByOne(second, chunk, 2, 3, extra);
    LeadsOn(s0, chunk, steps + c, second, d, third);
    var e := CrashesOn(third, chunk, extra);
    LeadsIsRun(s0, chunk, steps + c + d, third);
    RunsOn(s0, chunk, steps + c + d, e);
    steps := steps + c + d + e;
  }

  lemma CrashesOn(s: State, chunk: seq<byte>, extra: multiset<Packet>) returns (steps: seq<Step>)
    requires |chunk| == BT_CHUNK_SIZE && Outbound(s, chunk, 3, extra) && extra[Ack(1)] == 4
    ensures Possible(s, chunk, steps) && Run(s, chunk, steps).phase == Crashed(ErrorExit)
  {
    hide Inv, Possible, Run;
    StaleCopiesStopTheSender(s, chunk, 1);
    steps :| Lone(steps) && Possible(s, chunk, steps) && Run(s, chunk, steps).phase == Crashed(ErrorExit);
  }

  lemma LeadsIsRun(s: State, chunk: seq<byte>, steps: seq<Step>, s': State)
    requires |chunk| == BT_CHUNK_SIZE && Leads(s, chunk, steps, s')
    ensures Possible(s, chunk, steps) && Run(s, chunk, steps) == s'
  {
  }

  /** Packet 3 follows packet 2, and then packet 2 times out: two packets are outstanding and the
      window is one, which the readme rules out. */
  lemma OutnumberedRun(chunk: seq<byte>, now: int) returns (steps: seq<Step>)
    requires |chunk| == BT_CHUNK_SIZE
    ensures Possible(Initial(now), chunk, steps)
    ensures var s := Run(Initial(now), chunk, steps);
            s.phase.Active? && s.phase.u.up.size == 2 && s.phase.u.win.cwnd == 1
  {
    hide Next, Enabled, Inv;
    var a, s := FromStart(chunk, now, 2);
    SoundAbove(s.est);
    var third := FreshPass(s, chunk);
    var s1 := Next(s, chunk, third);
    StepKeepsInv(s, chunk, third);
    SecondOutstanding(s, chunk, 2);
    var late := TimeoutPass(s1, chunk);
    TimeoutShrinks(s1, chunk);
    var none: seq<Step> := [];
    assert Run(Next(s1, chunk, late), chunk, none) == Next(s1, chunk, late);
    Prepend(s1, chunk, late, none);
    Prepend(s, chunk, third, [late] + none);
    steps := a + ([third] + ([late] + none));
    RunsOn(Initial(now), chunk, a, [third] + ([late] + none));
  }

  lemma SecondOutstanding(s: State, chunk: seq<byte>, k: nat)
    requires |chunk| == BT_CHUNK_SIZE && Steadily(s, chunk, k) && 2 <= k < MAX_PACKET_PER_CHUNK
    ensures var s' := Next(s, chunk, Pass(None, s.clock, s.clock, s.clock));
            && s'.phase.Active? && s'.phase.u.up.size == 2 && s'.est == s.est && s'.clock == s.clock
            && s'.phase.u.up.lastTime == s.clock
            && s'.phase.u.up.queue != [] && s'.phase.u.up.queue[0] == Sent(k, s.clock)
  {
    hide Inv, Slice, Sound;
    SoundTimeout(s.est);
  }

  lemma TimeoutShrinks(s: State, chunk: seq<byte>)
    requires |chunk| == BT_CHUNK_SIZE && s.phase.Active?
    requires s.phase.u.up.queue != [] && s.phase.u.up.queue[0].num != 0
    ensures var s' := Next(s, chunk, Pass(None, TimeoutAt(s), TimeoutAt(s), TimeoutAt(s)));
            s'.phase.Active? ==> s'.phase.u.up.size == s.phase.u.up.size && s'.phase.u.win.cwnd == 1
  {
    hide Slice;
  }

  // --------------------------------------------------------------- running out of time

  /** Packet 1 has been sent `i + 1` times, one timeout apart, and nothing has come back. */
  ghost predicate Unheard(s: State, chunk: seq<byte>, now: int, i: nat)
    requires |chunk| == BT_CHUNK_SIZE
  {
    && Inv(s, chunk)
    && s.clock == now + i * (INITIAL.rto + 1)
    && s.phase.Active? && s.phase.u.win.cwnd == 1
    && s.phase.u.up == Upload([Sent(1, s.clock)], Some(1), 1, 0, 0, now)
    && s.est == INITIAL && s.down == STARTED && s.sent == 1
    && s.net == multiset{Data(1, Slice(chunk, 1))}
  }

  lemma SentAgain(s: State, chunk: seq<byte>, now: int, i: nat) returns (steps: seq<Step>, s': State)
    requires |chunk| == BT_CHUNK_SIZE && Unheard(s, chunk, now, i) && i < 3
    ensures Possible(s, chunk, steps) && Run(s, chunk, steps) == s' && Unheard(s', chunk, now, i + 1)
  {
    hide Next, Enabled, Unheard, Slice;
    LosesAndResends(s, chunk, now, i);
    var p, t := Data(1, Slice(chunk, 1)), now + (i + 1) * (INITIAL.rto + 1);
    var s1 := Next(s, chunk, Lose(p));
    s' := Next(s1, chunk, Pass(None, t, t, t));
    steps := [Lose(p)] + ([Pass(None, t, t, t)] + []);
    assert Run(s', chunk, []) == s';
    Prepend(s1, chunk, Pass(None, t, t, t), []);
    Prepend(s, chunk, Lose(p), [Pass(None, t, t, t)] + []);
  }

  lemma LosesAndResends(s: State, chunk: seq<byte>, now: int, i: nat)
    requires |chunk| == BT_CHUNK_SIZE && Unheard(s, chunk, now, i) && i < 3
    ensures var p, t := Data(1, Slice(chunk, 1)), now + (i + 1) * (INITIAL.rto + 1);
            var s1 := Next(s, chunk, Lose(p));
            && Enabled(s, Lose(p)) && Enabled(s1, Pass(None, t, t, t))
            && Unheard(Next(s1, chunk, Pass(None, t, t, t)), chunk, now, i + 1)
  {
    hide Inv, Slice, Next, Send;
    var p, t := Data(1, Slice(chunk, 1)), now + (i + 1) * (INITIAL.rto + 1);
    LosingKeeps(s, chunk, p);
    var s1 := Next(s, chunk, Lose(p));
    StepKeepsInv(s, chunk, Lose(p));
    assert s1.net == multiset{};
    var step := Pass(None, t, t, t);
    QuietPassIs(s1, chunk, step);
    ResendsFirst(s1.phase.u, chunk, now, t);
    StepKeepsInv(s1, chunk, step);
  }

  lemma ResendsFirst(u: Upstream, chunk: seq<byte>, now: int, t: int)
    requires |chunk| == BT_CHUNK_SIZE && u.win.cwnd == 1
    requires u.up == Upload([Sent(1, t - INITIAL.rto - 1)], Some(1), 1, 0, 0, now)
    ensures var r := Send(u, chunk, t, INITIAL.rto);
            && r.packet == Some(Data(1, Slice(chunk, 1))) && r.u.win.cwnd == 1
            && r.u.up == Upload([Sent(1, t)], Some(1), 1, 0, 0, now)
  {
    hide Slice;
  }

  /** Four copies of packet 1 are lost. The receiver has taken nothing, so a fifth would be welcome;
      but the sender's patience ends with the timeout that would send it. */
  lemma LateRun(chunk: seq<byte>, now: int) returns (steps: seq<Step>)
    requires |chunk| == BT_CHUNK_SIZE
    ensures Possible(Initial(now), chunk, steps)
    ensures var s := Run(Initial(now), chunk, steps);
            && Live(s, chunk) && s.net == multiset{} && s.down == STARTED && !CanComplete(s, chunk)
            && s.clock <= Deadline(s)
  {
    hide Next, Enabled, CanComplete, Inv, Unheard;
    var first, p := Pass(None, now, now, now), Data(1, Slice(chunk, 1));
    FirstUnheard(chunk, now);
    var s := Next(Initial(now), chunk, first);
    var none: seq<Step> := [];
    assert Run(s, chunk, none) == s;
    Prepend(Initial(now), chunk, first, none);
    steps := [first] + none;
    for i := 0 to 3
      invariant Possible(Initial(now), chunk, steps) && Run(Initial(now), chunk, steps) == s
      invariant Unheard(s, chunk, now, i)
    {
      var more, s' := SentAgain(s, chunk, now, i);
      RunsOn(Initial(now), chunk, steps, more);
      steps, s := steps + more, s';
    }
    var lost := Next(s, chunk, Lose(p));
    LastLoss(s, chunk, now);
    SilentIsDecided(lost);
    CompletableIff(lost, chunk);
    assert Run(lost, chunk, none) == lost;
    Prepend(s, chunk, Lose(p), none);
    RunsOn(Initial(now), chunk, steps, [Lose(p)] + none);
    steps := steps + ([Lose(p)] + none);
  }

  lemma FirstUnheard(chunk: seq<byte>, now: int)
    requires |chunk| == BT_CHUNK_SIZE
    ensures var step := Pass(None, now, now, now);
            Enabled(Initial(now), step) && Unheard(Next(Initial(now), chunk, step), chunk, now, 0)
  {
    hide Inv, Slice;
    InitialInv(chunk, now);
    StepKeepsInv(Initial(now), chunk, Pass(None, now, now, now));
  }

  lemma LastLoss(s: State, chunk: seq<byte>, now: int)
    requires |chunk| == BT_CHUNK_SIZE && Unheard(s, chunk, now, 3)
    ensures var p := Data(1, Slice(chunk, 1));
            var s' := Next(s, chunk, Lose(p));
            && Enabled(s, Lose(p)) && Live(s', chunk) && s'.net == multiset{} && s'.down == STARTED
            && !Recoverable(s') && s'.clock <= Deadline(s')
  {
    hide Inv, Slice;
    StepKeepsInv(s, chunk, Lose(Data(1, Slice(chunk, 1))));
  }

  // ------------------------------------------------------ longer than the receiver waits

  const SLOW := 3000000

  /** The acknowledgement of packet 1 took three seconds: the sender's timeout is now longer than the
      receiver's patience. Packets 2 and 3 have been sent. */
  ghost predicate Slow(s: State, chunk: seq<byte>)
    requires |chunk| == BT_CHUNK_SIZE
  {
    && Live(s, chunk) && s.down.last == 1 && s.sent == 3
    && s.phase.u.up == Upload([Sent(2, s.clock), Sent(3, s.clock)], Some(3), 2, 1, 0, s.clock)
    && s.phase.u.win == Window(SlowStart, 2, 2, 0)
    && Sound(s.est) && 7000000 <= s.est.rto
    && s.downEst == INITIAL && s.clock == s.downTime + SLOW
    && s.net == multiset{Data(2, Slice(chunk, 2)), Data(3, Slice(chunk, 3))}
  }

  lemma SlowSample(e: Estimator)
    requires Sound(e) && e.rtt == INITIAL.rtt
    ensures Sound(Infer(e, SLOW)) && 7000000 <= Infer(e, SLOW).rto
  {
  }

  lemma SlowSends(s: State, chunk: seq<byte>) returns (steps: seq<Step>, s': State)
    requires |chunk| == BT_CHUNK_SIZE && Answered(s, chunk, 1, multiset{})
    ensures Possible(s, chunk, steps) && Run(s, chunk, steps) == s' && Slow(s', chunk)
  {
    hide Inv, Slice, Sound, Infer, Pop, Acknowledge, OnAckPacket;
    var t := s.clock + SLOW;
    var heard, more := Pass(Some(1), t, t, t), Pass(None, t, t, t);
    HeardOnly(1, s.clock, s.est, t);
    SlowSample(s.est);
    assert s.net - multiset{Ack(1)} == multiset{};
    StepKeepsInv(s, chunk, heard);
    var s1 := Next(s, chunk, heard);
    assert s1.phase.u.up == Upload([Sent(2, t)], Some(2), 1, 1, 0, t);
    StepKeepsInv(s1, chunk, more);
    SlowSendsAgain(s1, chunk, t);
    s' := Next(s1, chunk, more);
    var none: seq<Step> := [];
    assert Run(s', chunk, none) == s';
    Prepend(s1, chunk, more, none);
    Prepend(s, chunk, heard, [more] + none);
    steps := [heard] + ([more] + none);
  }

  lemma SlowSendsAgain(s: State, chunk: seq<byte>, t: int)
    requires |chunk| == BT_CHUNK_SIZE && s.phase.Active? && s.clock == t && 0 <= s.est.rto
    requires s.phase.u == Upstream(Upload([Sent(2, t)], Some(2), 1, 1, 0, t), Window(SlowStart, 2, 2, 0))
    ensures var s' := Next(s, chunk, Pass(None, t, t, t));
            && s'.phase == Active(Upstream(Upload([Sent(2, t), Sent(3, t)], Some(3), 2, 1, 0, t),
                                           Window(SlowStart, 2, 2, 0)))
            && s'.net == s.net + multiset{Data(3, Slice(chunk, 3))} && s'.sent == 3
            && s'.est == s.est && s'.down == s.down && s'.downEst == s.downEst && s'.downTime == s.downTime
            && s'.clock == t
  {
    hide Slice;
  }

  /** Both packets are lost. The sender would send packet 2 again in its own good time, but by then the
      receiver has given up. */
  lemma SlowRun(chunk: seq<byte>, now: int) returns (steps: seq<Step>)
    requires |chunk| == BT_CHUNK_SIZE
    ensures Possible(Initial(now), chunk, steps)
    ensures var s := Run(Initial(now), chunk, steps);
            Live(s, chunk) && s.net == multiset{} && CanComplete(s, chunk) && !CanCompleteInTime(s, chunk)
  {
    hide Inv, Next, CanComplete, CanCompleteInTime, Slow, Answered;
    var s0 := Initial(now);
    var a, answered := FromStartAnswered(chunk, now, 1);
    LeadsIsRun(s0, chunk, a, answered);
    var b, slow := SlowSends(answered, chunk);
    RunsOn(s0, chunk, a, b);
    var p, q := Data(2, Slice(chunk, 2)), Data(3, Slice(chunk, 3));
    var s1 := Next(slow, chunk, Lose(p));
    var s2 := Next(s1, chunk, Lose(q));
    SlowIsLost(slow, chunk);
    var none: seq<Step> := [];
    assert Run(s2, chunk, none) == s2;
    Prepend(s1, chunk, Lose(q), none);
    Prepend(slow, chunk, Lose(p), [Lose(q)] + none);
    RunsOn(s0, chunk, a + b, [Lose(p)] + ([Lose(q)] + none));
    steps := a + b + ([Lose(p)] + ([Lose(q)] + none));
  }

  lemma SlowIsLost(s: State, chunk: seq<byte>)
    requires |chunk| == BT_CHUNK_SIZE && Slow(s, chunk)
    ensures var p, q := Data(2, Slice(chunk, 2)), Data(3, Slice(chunk, 3));
            var s1 := Next(s, chunk, Lose(p));
            var s2 := Next(s1, chunk, Lose(q));
            && Enabled(s, Lose(p)) && Enabled(s1, Lose(q))
            && Live(s2, chunk) && s2.net == multiset{} && CanComplete(s2, chunk) && !CanCompleteInTime(s2, chunk)
  {
    hide Inv, CanComplete, CanCompleteInTime, Slice, Next;
    var p, q := Data(2, Slice(chunk, 2)), Data(3, Slice(chunk, 3));
    LosingKeeps(s, chunk, p);
    var s1 := Next(s, chunk, Lose(p));
    LosingKeeps(s1, chunk, q);
    var s2 := Next(s1, chunk, Lose(q));
    StepKeepsInv(s, chunk, Lose(p));
    StepKeepsInv(s1, chunk, Lose(q));
    assert s2.net == multiset{};
    SilentIsDecided(s2);
    assert CanRetransmit(s2);
    CompletableIff(s2, chunk);
    InTimeIff(s2, chunk);
  }
}
