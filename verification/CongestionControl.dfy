/**
  congestion_control.c: one window per upload slot, kept in four parallel arrays.
 */
module CongestionControl {
  import opened Wrappers

  datatype Policy = SlowStart | CongestionAvoidance

  /** One column of the four arrays. */
  datatype Window = Window(policy: Policy, cwnd: nat, maxCwnd: nat, ackCount: nat)

  const INITIAL_WINDOW: nat := 1

  const FRESH := Window(SlowStart, INITIAL_WINDOW, 1, 0)

  /** The test that selects linear growth. */
  predicate Linear(w: Window)
  {
    w.policy == CongestionAvoidance && w.cwnd <= w.maxCwnd / 2
  }

  function OnAck(w: Window, count: nat): Window
  {
    match w.policy
    case SlowStart =>
      var cwnd := w.cwnd + count;
      w.(cwnd := cwnd, maxCwnd := if cwnd > w.maxCwnd then cwnd else w.maxCwnd)
    case CongestionAvoidance =>
      if Linear(w) then
        var ackCount := w.ackCount + count;
        if ackCount >= w.cwnd then w.(ackCount := ackCount - w.cwnd, cwnd := w.cwnd + 1)
        else w.(ackCount := ackCount)
      else
        w.(cwnd := w.cwnd + count)
  }

  function OnTimeout(w: Window): Window
  {
    w.(policy := CongestionAvoidance, cwnd := INITIAL_WINDOW)
  }

  /** The arrays `cwnds`, `max_cwnds`, `ack_counts` and `cc_policies`. A method takes the slot
      index that `get_upload_index_by_id` found, which is -1 for an unknown peer. */
  class Controller {
    const cwnds: array<nat>
    const maxCwnds: array<nat>
    const ackCounts: array<nat>
    const policies: array<Policy>

    ghost predicate Valid()
      reads this
    {
      && cwnds.Length == maxCwnds.Length == ackCounts.Length == policies.Length
      && cwnds != maxCwnds && cwnds != ackCounts && maxCwnds != ackCounts
    }

    ghost function Slots(): (slots: seq<Window>)
      requires Valid()
      reads this, cwnds, maxCwnds, ackCounts, policies
      ensures |slots| == cwnds.Length
    {
      seq(cwnds.Length, i requires 0 <= i < cwnds.Length && Valid() reads this, cwnds, maxCwnds, ackCounts, policies =>
        Window(policies[i], cwnds[i], maxCwnds[i], ackCounts[i]))
    }

    constructor (max: nat)
      ensures Valid() && cwnds.Length == max
      ensures fresh(cwnds) && fresh(maxCwnds) && fresh(ackCounts) && fresh(policies)
    {
      cwnds := new nat[max];
      maxCwnds := new nat[max];
      ackCounts := new nat[max];
      policies := new Policy[max];
    }

    method InitCwnd(index: int)
      requires Valid() && -1 <= index < cwnds.Length
      modifies cwnds, maxCwnds, ackCounts, policies
      ensures Slots() == if index == -1 then old(Slots()) else old(Slots())[index := FRESH]
    {
      if index == -1 {
        return;
      }
      policies[index] := SlowStart;
      cwnds[index] := INITIAL_WINDOW;
      ackCounts[index] := 0;
      maxCwnds[index] := 1;
    }

    method WindowControl(index: int, count: nat) returns (r: int)
      requires Valid() && -1 <= index < cwnds.Length
      modifies cwnds, maxCwnds, ackCounts
      ensures r == if index == -1 then -1 else 1
      ensures Slots() == if index == -1 then old(Slots())
                         else old(Slots())[index := OnAck(old(Slots())[index], count)]
    {
      if index == -1 {
        return -1;
      }
      if policies[index] == SlowStart {
        cwnds[index] := cwnds[index] + count;
        maxCwnds[index] := if cwnds[index] > maxCwnds[index] then cwnds[index] else maxCwnds[index];
      } else if policies[index] == CongestionAvoidance {
        if cwnds[index] <= maxCwnds[index] / 2 {
          ackCounts[index] := ackCounts[index] + count;
          if ackCounts[index] >= cwnds[index] {
            ackCounts[index] := ackCounts[index] - cwnds[index];
            cwnds[index] := cwnds[index] + 1;
          }
        } else {
          cwnds[index] := cwnds[index] + count;
        }
      }
      return 1;
    }

    method WindowTimeout(index: int)
      requires Valid() && -1 <= index < cwnds.Length
      modifies cwnds, policies
      ensures Slots() == if index == -1 then old(Slots())
                         else old(Slots())[index := OnTimeout(old(Slots())[index])]
    {
      if index == -1 {
        return;
      }
      policies[index] := CongestionAvoidance;
      cwnds[index] := INITIAL_WINDOW;
    }

    method GetCwndSize(index: int) returns (size: int)
      requires Valid() && -1 <= index < cwnds.Length
      ensures size == if index == -1 then -1 else Slots()[index].cwnd
    {
      if index != -1 {
        return cwnds[index];
      }
      return -1;
    }
  }

  // ------------------------------------------------- linear-phase conservation

  function OnAcks(w: Window, counts: seq<nat>): Window
    decreases |counts|
  {
    if counts == [] then w else OnAcks(OnAck(w, counts[0]), counts[1..])
  }

  /** Every one of the acknowledgements meets the linear-growth test. */
  ghost predicate StaysLinear(w: Window, counts: seq<nat>)
    decreases |counts|
  {
    counts == [] || (Linear(w) && StaysLinear(OnAck(w, counts[0]), counts[1..]))
  }

  function Sum(counts: seq<nat>): nat
  {
    if counts == [] then 0 else counts[0] + Sum(counts[1..])
  }

  /** Twice the number of acknowledgements that went into the window: what the counter still
      holds, plus 1 + 2 + ... + (cwnd - 1) for the increments already paid. */
  function Credit(w: Window): int
  {
    2 * w.ackCount + w.cwnd * (w.cwnd - 1)
  }

  lemma OnAckCredit(w: Window, count: nat)
    requires Linear(w)
    ensures Credit(OnAck(w, count)) == Credit(w) + 2 * count
  {
    assert (w.cwnd + 1) * w.cwnd == w.cwnd * (w.cwnd - 1) + 2 * w.cwnd;
  }

  /** Linear growth neither loses nor invents an acknowledgement, so the window grows only as the
      square root of the packets acknowledged. */
  lemma {:induction false} LinearConservation(w: Window, counts: seq<nat>)
    requires StaysLinear(w, counts)
    ensures var r := OnAcks(w, counts);
            && Credit(r) == Credit(w) + 2 * Sum(counts)
            && r.cwnd * (r.cwnd - 1) <= Credit(w) + 2 * Sum(counts)
            && w.cwnd <= r.cwnd
    decreases |counts|
  {
    if counts != [] {
      OnAckCredit(w, counts[0]);
      LinearConservation(OnAck(w, counts[0]), counts[1..]);
    }
  }

  // ---------------------------------------------- the other two phases, and a cycle

  /** Above half the maximum each packet acknowledged is one more in the window, until the next
      timeout; counter and maximum stay. */
  lemma {:induction false} FastGrowth(w: Window, counts: seq<nat>)
    requires w.policy == CongestionAvoidance && w.cwnd > w.maxCwnd / 2
    ensures OnAcks(w, counts) == w.(cwnd := w.cwnd + Sum(counts))
    decreases |counts|
  {
    if counts != [] {
      FastGrowth(OnAck(w, counts[0]), counts[1..]);
    }
  }

  /** So it is in slow start, where the maximum follows. */
  lemma {:induction false} SlowStartGrowth(w: Window, counts: seq<nat>)
    requires w.policy == SlowStart && w.cwnd <= w.maxCwnd
    ensures OnAcks(w, counts) ==
            w.(cwnd := w.cwnd + Sum(counts), maxCwnd := Max(w.maxCwnd, w.cwnd + Sum(counts)))
    decreases |counts|
  {
    if counts == [] {
    } else {
      SlowStartGrowth(OnAck(w, counts[0]), counts[1..]);
    }
  }

  lemma {:induction false} OnAcksOfConcat(w: Window, a: seq<nat>, b: seq<nat>)
    ensures OnAcks(w, a + b) == OnAcks(OnAcks(w, a), b)
    decreases |a|
  {
    if a == [] {
      assert a + b == b;
    } else {
      assert (a + b)[1..] == a[1..] + b;
      OnAcksOfConcat(OnAck(w, a[0]), a[1..], b);
    }
  }

  /** From one timeout to the next: the window starts at one and the counter is kept, so that while
      growth is linear, counter and window together account for the old counter and every packet
      acknowledged; once that has taken the window above half the old maximum, it grows with every
      packet. */
  lemma CycleAfterTimeout(w: Window, slow: seq<nat>, fast: seq<nat>)
    requires StaysLinear(OnTimeout(w), slow)
    ensures var m := OnAcks(OnTimeout(w), slow);
            && m.policy == CongestionAvoidance && m.maxCwnd == w.maxCwnd
            && Credit(m) == 2 * (w.ackCount + Sum(slow))
            && (m.cwnd > w.maxCwnd / 2 ==>
                  OnAcks(OnTimeout(w), slow + fast) == m.(cwnd := m.cwnd + Sum(fast)))
  {
    var m := OnAcks(OnTimeout(w), slow);
    assert Credit(OnTimeout(w)) == 2 * w.ackCount;
    hide Credit, StaysLinear;
    LinearConservation(OnTimeout(w), slow);
    LinearKeepsMaximum(OnTimeout(w), slow);
    OnAcksOfConcat(OnTimeout(w), slow, fast);
    if m.cwnd > w.maxCwnd / 2 {
      FastGrowth(m, fast);
    }
  }

  lemma {:induction false} LinearKeepsMaximum(w: Window, counts: seq<nat>)
    requires w.policy == CongestionAvoidance
    ensures OnAcks(w, counts).policy == CongestionAvoidance && OnAcks(w, counts).maxCwnd == w.maxCwnd
    decreases |counts|
  {
    if counts != [] {
      LinearKeepsMaximum(OnAck(w, counts[0]), counts[1..]);
    }
  }

  // ------------------------------------- acknowledgements of nothing new, and timeouts

  /** In slow start the counter is zero and the maximum is the window itself. */
  ghost predicate Plain(w: Window)
  {
    w.policy == SlowStart ==> w.ackCount == 0 && w.cwnd == w.maxCwnd
  }

  /** Neither acknowledgements of no packets nor timeouts ever take the window above `n`: linear
      growth ends before that, or the counter does not hold enough for it. */
  ghost predicate Shut(w: Window, n: int)
  {
    w.cwnd <= n && (w.maxCwnd / 2 < n || Credit(w) < n * (n + 1))
  }

  lemma Ordered(a: nat, b: nat)
    requires a <= b
    ensures a * (a - 1) <= b * (b - 1) && b * (b - 1) + 2 * b == b * (b + 1)
  {
    if a > 0 {
      assert a * (a - 1) <= a * (b - 1) <= b * (b - 1);
    }
  }

  lemma ShutAfterAck(w: Window, n: int)
    requires Shut(w, n) && Plain(w)
    ensures Shut(OnAck(w, 0), n) && Plain(OnAck(w, 0))
  {
    if Linear(w) {
      OnAckCredit(w, 0);
      Ordered(w.cwnd, n);
    }
  }

  lemma ShutAfterTimeout(w: Window, n: int)
    requires Shut(w, n) && 1 <= n
    ensures Shut(OnTimeout(w), n)
  {
    Ordered(0, w.cwnd);
  }

  lemma ShutAfterLateAck(w: Window, n: int)
    requires Shut(OnTimeout(w), n) && Plain(w)
    ensures Shut(OnTimeout(OnAck(w, 0)), n)
  {
  }

  /** A window that is not shut and has no room yet opens by one. */
  lemma OpensByOne(w: Window, n: int)
    requires !Shut(w, n) && Plain(w) && w.cwnd <= n && 1 <= n
    ensures OnAck(w, 0).cwnd == w.cwnd + 1 && !Shut(OnAck(w, 0), n) && Plain(OnAck(w, 0))
  {
    Ordered(w.cwnd, n);
    assert w.policy == CongestionAvoidance;
    OnAckCredit(w, 0);
  }

  /** The window after `j` acknowledgements of no packets. */
  function ZeroAcks(w: Window, j: nat): Window
    decreases j
  {
    if j == 0 then w else ZeroAcks(OnAck(w, 0), j - 1)
  }

  lemma {:induction false} ShutNeverOpens(w: Window, n: int, j: nat)
    requires Shut(w, n) && Plain(w)
    ensures ZeroAcks(w, j).cwnd <= n
    decreases j
  {
    if j != 0 {
      ShutAfterAck(w, n);
      ShutNeverOpens(OnAck(w, 0), n, j - 1);
    }
  }

  lemma {:induction false} OpensInTheEnd(w: Window, n: int) returns (j: nat)
    requires !Shut(w, n) && Plain(w) && 1 <= n
    ensures ZeroAcks(w, j).cwnd > n
    decreases if w.cwnd > n then 0 else n + 1 - w.cwnd
  {
    j := 0;
    if w.cwnd <= n {
      OpensByOne(w, n);
      var rest := OpensInTheEnd(OnAck(w, 0), n);
      j := rest + 1;
    }
  }

  /** Some number of acknowledgements of no packets takes the window above `n` exactly when it is
      already there, or linear growth goes that far and the counter holds enough for it. */
  lemma ShutIff(w: Window, n: int)
    requires Plain(w) && 1 <= n
    ensures (exists j: nat :: ZeroAcks(w, j).cwnd > n) <==>
            w.cwnd > n || (n <= w.maxCwnd / 2 && n * (n + 1) <= Credit(w))
  {
    if Shut(w, n) {
      forall j: nat
        ensures ZeroAcks(w, j).cwnd <= n
      {
        ShutNeverOpens(w, n, j);
      }
    } else {
      var j := OpensInTheEnd(w, n);
    }
  }

  /** Without anything in the counter, shut means no room. */
  lemma ShutWithoutCounter(w: Window, n: int)
    requires w.ackCount == 0 && 1 <= n
    ensures Shut(w, n) <==> w.cwnd <= n
  {
    if w.cwnd <= n {
      Ordered(w.cwnd, n);
    }
  }
}
