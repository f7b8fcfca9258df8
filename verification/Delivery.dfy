/**
  Packets under way between routers: `recv`, `enQ` and the loop of `run`, with every queue of every
  router in one list in order of arrival. Which queue runs next is left open.
 */
module Delivery {
  import opened Topology

  datatype Packet = Packet(uid: nat, dest: nat)

  /** A packet that waits at router `at` in its queue towards `via`. */
  datatype Entry = Entry(at: nat, via: nat, p: Packet)

  datatype Net = Net(waiting: seq<Entry>, delivered: multiset<Packet>, dropped: multiset<Packet>)

  function QueueLength(waiting: seq<Entry>, at: nat, via: nat): nat
  {
    if waiting == [] then 0
    else QueueLength(waiting[1..], at, via) + if waiting[0].at == at && waiting[0].via == via then 1 else 0
  }

  /** Router `at` has a queue for packets to `dest`, or is their end. */
  predicate Routable(tables: Tables, max: map<(nat, nat), nat>, at: nat, dest: nat)
  {
    at in tables && (dest != at ==> dest in tables[at] && (at, tables[at][dest]) in max)
  }

  function Recv(n: Net, tables: Tables, max: map<(nat, nat), nat>, at: nat, p: Packet): Net
    requires Routable(tables, max, at, p.dest)
  {
    if p.dest == at then n.(delivered := n.delivered + multiset{p})
    else
      var via := tables[at][p.dest];
      if QueueLength(n.waiting, at, via) >= max[(at, via)] then n.(dropped := n.dropped + multiset{p})
      else n.(waiting := n.waiting + [Entry(at, via, p)])
  }

  /** Entry `i` is the head of its queue. */
  predicate Head(waiting: seq<Entry>, i: nat)
  {
    i < |waiting| &&
    forall j :: 0 <= j < i ==> !(waiting[j].at == waiting[i].at && waiting[j].via == waiting[i].via)
  }

  ghost predicate Ready(g: Graph, tables: Tables, max: map<(nat, nat), nat>)
  {
    WellFormed(g) && Connected(g) && TablesOk(g, tables) && forall u, v :: (u, v) in g.edges ==> (u, v) in max
  }

  ghost predicate EntryOk(g: Graph, tables: Tables, e: Entry)
  {
    && e.at in g.nodes && e.p.dest in g.nodes && e.at != e.p.dest
    && e.at in tables && e.p.dest in tables[e.at] && e.via == tables[e.at][e.p.dest]
  }

  ghost predicate Inv(g: Graph, tables: Tables, n: Net)
  {
    forall i :: 0 <= i < |n.waiting| ==> EntryOk(g, tables, n.waiting[i])
  }

  /** The hop distance, zero when there is none. */
  ghost function Hops(g: Graph, u: nat, v: nat): nat
  {
    if exists d: nat :: IsDistance(g, u, v, d) then
      var d: nat :| IsDistance(g, u, v, d);
      d
    else 0
  }

  lemma HopsAreDistance(g: Graph, u: nat, v: nat)
    requires Connected(g) && u in g.nodes && v in g.nodes
    ensures IsDistance(g, u, v, Hops(g, u, v))
  {
    assert Reachable(g, u, v);
    ShortestExists(g, u, v);
  }

  lemma ShortestExists(g: Graph, u: nat, v: nat)
    requires Reachable(g, u, v)
    ensures exists d: nat :: IsDistance(g, u, v, d)
  {
    var k: nat :| Walk(g, u, v, k);
    ShortestUpTo(g, u, v, k);
  }

  lemma {:induction false} ShortestUpTo(g: Graph, u: nat, v: nat, k: nat)
    requires Walk(g, u, v, k)
    ensures exists d: nat :: IsDistance(g, u, v, d)
    decreases k
  {
    if m: nat :| m < k && Walk(g, u, v, m) {
      ShortestUpTo(g, u, v, m);
    } else {
      assert IsDistance(g, u, v, k);
    }
  }

  /** The hops an entry has still to make, that to `via` included. */
  ghost function Ahead(g: Graph, e: Entry): nat
  {
    Hops(g, e.at, e.p.dest)
  }

  lemma NextRouter(g: Graph, tables: Tables, e: Entry)
    requires WellFormed(g) && Connected(g) && TablesOk(g, tables) && EntryOk(g, tables, e)
    ensures e.via in g.nodes && Hops(g, e.via, e.p.dest) + 1 == Ahead(g, e)
  {
    hide Connected, TablesOk, WellFormed, IsDistance, Hops;
    HopsAreDistance(g, e.at, e.p.dest);
    var d := Hops(g, e.at, e.p.dest);
    ArrivedIffNear(g, e.at, e.p.dest, d);
    HopApproaches(g, tables, e.at, e.p.dest, d - 1);
    HopsAreDistance(g, e.via, e.p.dest);
    DistanceIsUnique(g, e.via, e.p.dest, d - 1, Hops(g, e.via, e.p.dest));
  }

  ghost function Potential(g: Graph, waiting: seq<Entry>): nat
  {
    if waiting == [] then 0 else Ahead(g, waiting[0]) + Potential(g, waiting[1..])
  }

  function Packets(waiting: seq<Entry>): multiset<Packet>
  {
    if waiting == [] then multiset{} else multiset{waiting[0].p} + Packets(waiting[1..])
  }

  function Removed(waiting: seq<Entry>, i: nat): seq<Entry>
    requires i < |waiting|
  {
    waiting[..i] + waiting[i + 1..]
  }

  lemma {:induction false} RemovedPotential(g: Graph, waiting: seq<Entry>, i: nat)
    requires i < |waiting|
    ensures Potential(g, Removed(waiting, i)) + Ahead(g, waiting[i]) == Potential(g, waiting)
    decreases i
  {
    hide Ahead;
    if i == 0 {
      assert Removed(waiting, 0) == waiting[1..];
    } else {
      RemovedPotential(g, waiting[1..], i - 1);
      assert Removed(waiting, i)[1..] == Removed(waiting[1..], i - 1);
    }
  }

  lemma AddedInFront(m: multiset<Packet>, a: multiset<Packet>, b: multiset<Packet>, c: multiset<Packet>)
    requires a + b == c
    ensures m + a + b == m + c
  {
  }

  lemma {:induction false} RemovedPackets(waiting: seq<Entry>, i: nat)
    requires i < |waiting|
    ensures Packets(Removed(waiting, i)) + multiset{waiting[i].p} == Packets(waiting)
    decreases i
  {
    if i == 0 {
      assert Removed(waiting, 0) == waiting[1..];
    } else {
      var rest := Removed(waiting[1..], i - 1);
      RemovedPackets(waiting[1..], i - 1);
      assert Removed(waiting, i) == [waiting[0]] + rest;
      PacketsOfCons(waiting[0], rest);
      AddedInFront(multiset{waiting[0].p}, Packets(rest), multiset{waiting[i].p}, Packets(waiting[1..]));
    }
  }

  lemma PacketsOfCons(e: Entry, waiting: seq<Entry>)
    ensures Packets([e] + waiting) == multiset{e.p} + Packets(waiting)
  {
    assert ([e] + waiting)[1..] == waiting;
  }

  lemma {:induction false} AppendedPotential(g: Graph, waiting: seq<Entry>, e: Entry)
    ensures Potential(g, waiting + [e]) == Potential(g, waiting) + Ahead(g, e)
    decreases |waiting|
  {
    hide Ahead;
    if waiting == [] {
      assert waiting + [e] == [e];
    } else {
      AppendedPotential(g, waiting[1..], e);
      assert (waiting + [e])[1..] == waiting[1..] + [e];
    }
  }

  lemma {:induction false} AppendedPackets(waiting: seq<Entry>, e: Entry)
    ensures Packets(waiting + [e]) == Packets(waiting) + multiset{e.p}
    decreases |waiting|
  {
    if waiting == [] {
      assert waiting + [e] == [e];
    } else {
      AppendedPackets(waiting[1..], e);
      assert (waiting + [e])[1..] == waiting[1..] + [e];
    }
  }

  /** All packets that are or were in the network. */
  function All(n: Net): multiset<Packet>
  {
    n.delivered + n.dropped + Packets(n.waiting)
  }

  /** The head of a queue is handed to the router at the other end. */
  function Leave(n: Net, tables: Tables, max: map<(nat, nat), nat>, i: nat): Net
    requires i < |n.waiting|
    requires Routable(tables, max, n.waiting[i].via, n.waiting[i].p.dest)
  {
    Recv(n.(waiting := Removed(n.waiting, i)), tables, max, n.waiting[i].via, n.waiting[i].p)
  }

  lemma RecvEffect(g: Graph, tables: Tables, max: map<(nat, nat), nat>, n: Net, at: nat, p: Packet)
    requires Ready(g, tables, max) && Inv(g, tables, n) && at in g.nodes && p.dest in g.nodes
    ensures Routable(tables, max, at, p.dest)
    ensures var n' := Recv(n, tables, max, at, p);
            && Inv(g, tables, n')
            && All(n') == All(n) + multiset{p}
            && Potential(g, n'.waiting) == Potential(g, n.waiting) +
               (if n'.dropped == n.dropped then Hops(g, at, p.dest) else 0)
            && (p.dest == at ==> n'.delivered == n.delivered + multiset{p})
  {
    hide Connected, WellFormed, IsDistance, Hops, QueueLength, TableOk, Potential, Packets;
    HopsAreDistance(g, at, p.dest);
    var d := Hops(g, at, p.dest);
    ArrivedIffNear(g, at, p.dest, d);
    if p.dest != at {
      HopApproaches(g, tables, at, p.dest, d - 1);
      var e := Entry(at, tables[at][p.dest], p);
      AppendedPotential(g, n.waiting, e);
      AppendedPackets(n.waiting, e);
    }
    assert n.dropped + multiset{p} != n.dropped by {
      assert (n.dropped + multiset{p})[p] == n.dropped[p] + 1;
    }
  }

  /** Every hop brings the packets under way closer to their ends by exactly one, unless the queue
      ahead is full; no packet is lost or made on the way. */
  lemma LeaveApproaches(g: Graph, tables: Tables, max: map<(nat, nat), nat>, n: Net, i: nat)
    requires Ready(g, tables, max) && Inv(g, tables, n) && i < |n.waiting|
    ensures Routable(tables, max, n.waiting[i].via, n.waiting[i].p.dest)
    ensures var n' := Leave(n, tables, max, i);
            && Inv(g, tables, n') && All(n') == All(n)
            && Potential(g, n'.waiting) < Potential(g, n.waiting)
            && (n'.dropped == n.dropped ==> Potential(g, n'.waiting) + 1 == Potential(g, n.waiting))
  {
    hide Connected, IsDistance, TablesOk, WellFormed, Recv, Hops;
    var e := n.waiting[i];
    var rest := n.(waiting := Removed(n.waiting, i));
    RemovedPotential(g, n.waiting, i);
    RemovedPackets(n.waiting, i);
    assert EntryOk(g, tables, e);
    NextRouter(g, tables, e);
    RecvEffect(g, tables, max, rest, e.via, e.p);
  }

  ghost predicate Possible(n: Net, tables: Tables, max: map<(nat, nat), nat>, moves: seq<nat>)
    decreases |moves|
  {
    moves == [] ||
    (&& Head(n.waiting, moves[0])
     && Routable(tables, max, n.waiting[moves[0]].via, n.waiting[moves[0]].p.dest)
     && Possible(Leave(n, tables, max, moves[0]), tables, max, moves[1..]))
  }

  function Run(n: Net, tables: Tables, max: map<(nat, nat), nat>, moves: seq<nat>): Net
    requires Possible(n, tables, max, moves)
    decreases |moves|
  {
    if moves == [] then n else Run(Leave(n, tables, max, moves[0]), tables, max, moves[1..])
  }

  /** Whatever order the queues run in, there are no more moves than hops ahead, so that packets
      never circulate; when nothing waits any more, all have been delivered or dropped. */
  lemma {:induction false} PacketsArriveOrAreDropped(g: Graph, tables: Tables, max: map<(nat, nat), nat>, n: Net,
        moves: seq<nat>)
    requires Ready(g, tables, max) && Inv(g, tables, n) && Possible(n, tables, max, moves)
    ensures var n' := Run(n, tables, max, moves);
            && Inv(g, tables, n')
            && |moves| + Potential(g, n'.waiting) <= Potential(g, n.waiting)
            && (n'.waiting == [] ==> n'.delivered + n'.dropped == All(n))
            && All(n') == All(n)
    decreases |moves|
  {
    if moves != [] {
      hide Ready, Inv, Potential, Leave, All, Head;
      LeaveApproaches(g, tables, max, n, moves[0]);
      PacketsArriveOrAreDropped(g, tables, max, Leave(n, tables, max, moves[0]), moves[1..]);
    }
  }

  // ---------------------------------------------------------- what queues drop

  /** The positions of the packets that wait at `at` for `via`. */
  function Positions(waiting: seq<Entry>, at: nat, via: nat): set<nat>
  {
    set i: nat | i < |waiting| && waiting[i].at == at && waiting[i].via == via
  }

  lemma {:induction false} LengthIsPositions(waiting: seq<Entry>, at: nat, via: nat)
    ensures QueueLength(waiting, at, via) == |Positions(waiting, at, via)|
    decreases |waiting|
  {
    if waiting != [] {
      var rest := Positions(waiting[1..], at, via);
      LengthIsPositions(waiting[1..], at, via);
      var moved := Moved(rest);
      MovedCount(rest);
      if waiting[0].at == at && waiting[0].via == via {
        assert Positions(waiting, at, via) == moved + {0} by { PositionsMove(waiting, at, via); }
      } else {
        assert Positions(waiting, at, via) == moved by { PositionsMove(waiting, at, via); }
      }
    }
  }

  lemma PositionsMove(waiting: seq<Entry>, at: nat, via: nat)
    requires waiting != []
    ensures forall i: nat :: i + 1 in Positions(waiting, at, via) <==> i in Positions(waiting[1..], at, via)
    ensures forall i :: i in Positions(waiting, at, via) && i != 0 ==> i - 1 in Positions(waiting[1..], at, via)
  {
  }

  function Moved(s: set<nat>): set<nat>
  {
    set i | i in s :: i + 1
  }

  lemma {:induction false} MovedCount(s: set<nat>)
    ensures |Moved(s)| == |s|
    decreases |s|
  {
    if s == {} {
      assert Moved(s) == {};
    } else {
      var x: nat :| x in s;
      MovedCount(s - {x});
      forall y | y in Moved(s)
        ensures y in Moved(s - {x}) + {x + 1}
      {
        var i :| i in s && y == i + 1;
        assert i != x ==> i in s - {x};
      }
      assert Moved(s) == Moved(s - {x}) + {x + 1};
    }
  }

  /** A router keeps what has arrived, drops what finds its queue full and puts everything else at the
      end of that queue. */
  lemma RecvDropsIff(n: Net, tables: Tables, max: map<(nat, nat), nat>, at: nat, p: Packet)
    requires Routable(tables, max, at, p.dest)
    ensures Recv(n, tables, max, at, p) ==
            if p.dest == at then n.(delivered := n.delivered + multiset{p})
            else if |Positions(n.waiting, at, tables[at][p.dest])| >= max[(at, tables[at][p.dest])]
            then n.(dropped := n.dropped + multiset{p})
            else n.(waiting := n.waiting + [Entry(at, tables[at][p.dest], p)])
  {
    if p.dest != at {
      LengthIsPositions(n.waiting, at, tables[at][p.dest]);
    }
  }

  lemma {:induction false} LengthIsNoMore(waiting: seq<Entry>, at: nat, via: nat)
    ensures QueueLength(waiting, at, via) <= |waiting|
    decreases |waiting|
  {
    if waiting != [] {
      LengthIsNoMore(waiting[1..], at, via);
    }
  }

  ghost predicate AllRoom(g: Graph, max: map<(nat, nat), nat>, packets: nat)
  {
    forall u, v :: (u, v) in g.edges && (u, v) in max ==> packets <= max[(u, v)]
  }

  lemma LeaveDropsNothing(g: Graph, tables: Tables, max: map<(nat, nat), nat>, n: Net, i: nat)
    requires Ready(g, tables, max) && Inv(g, tables, n) && i < |n.waiting| && AllRoom(g, max, |n.waiting|)
    requires Routable(tables, max, n.waiting[i].via, n.waiting[i].p.dest)
    ensures var n' := Leave(n, tables, max, i); n'.dropped == n.dropped && |n'.waiting| <= |n.waiting|
  {
    hide Connected, TablesOk, WellFormed, QueueLength, Hops, IsDistance;
    var e, rest := n.waiting[i], Removed(n.waiting, i);
    assert EntryOk(g, tables, e);
    if e.p.dest != e.via {
      NextRouter(g, tables, e);
      LengthIsNoMore(rest, e.via, tables[e.via][e.p.dest]);
      HopsAreDistance(g, e.via, e.p.dest);
      var d := Hops(g, e.via, e.p.dest);
      ArrivedIffNear(g, e.via, e.p.dest, d);
      HopApproaches(g, tables, e.via, e.p.dest, d - 1);
    }
  }

  /** Without more packets under way than the shortest queue can hold, nothing is dropped: in whatever
      order the queues run, every packet has been delivered when nothing waits any more. */
  lemma {:induction false} RoomDeliversAll(g: Graph, tables: Tables, max: map<(nat, nat), nat>, n: Net,
        moves: seq<nat>)
    requires Ready(g, tables, max) && Inv(g, tables, n) && Possible(n, tables, max, moves)
    requires AllRoom(g, max, |n.waiting|)
    ensures var n' := Run(n, tables, max, moves);
            n'.dropped == n.dropped && (n'.waiting == [] ==> n'.delivered == n.delivered + Packets(n.waiting))
    decreases |moves|
  {
    PacketsArriveOrAreDropped(g, tables, max, n, moves);
    if moves != [] {
      hide Ready, Inv, Potential, Leave, Head, Packets;
      var next := Leave(n, tables, max, moves[0]);
      LeaveApproaches(g, tables, max, n, moves[0]);
      LeaveDropsNothing(g, tables, max, n, moves[0]);
      RoomDeliversAll(g, tables, max, next, moves[1..]);
    }
    var n' := Run(n, tables, max, moves);
    if n'.waiting == [] && n'.dropped == n.dropped {
      SameRest(n'.delivered, n.dropped, n.delivered, Packets(n.waiting));
    }
  }

  lemma SameRest(a: multiset<Packet>, dropped: multiset<Packet>, b: multiset<Packet>, c: multiset<Packet>)
    requires a + dropped == b + dropped + c
    ensures a == b + c
  {
    forall p
      ensures a[p] == (b + c)[p]
    {
      assert (a + dropped)[p] == (b + dropped + c)[p];
    }
  }

  // ------------------------------------------------------------ first come, first out

  /** The packets that wait at `at` for `via`, in order of arrival. */
  function QueueOf(waiting: seq<Entry>, at: nat, via: nat): seq<Packet>
  {
    if waiting == [] then []
    else (if waiting[0].at == at && waiting[0].via == via then [waiting[0].p] else []) + QueueOf(waiting[1..], at, via)
  }

  lemma {:induction false} AppendedQueue(waiting: seq<Entry>, e: Entry, at: nat, via: nat)
    ensures QueueOf(waiting + [e], at, via) ==
            QueueOf(waiting, at, via) + if e.at == at && e.via == via then [e.p] else []
    decreases |waiting|
  {
    if waiting == [] {
      assert waiting + [e] == [e];
    } else {
      AppendedQueue(waiting[1..], e, at, via);
      assert (waiting + [e])[1..] == waiting[1..] + [e];
    }
  }

  lemma {:induction false} RemovedQueue(waiting: seq<Entry>, i: nat, at: nat, via: nat)
    requires Head(waiting, i)
    ensures if waiting[i].at == at && waiting[i].via == via
            then QueueOf(waiting, at, via) == [waiting[i].p] + QueueOf(Removed(waiting, i), at, via)
            else QueueOf(waiting, at, via) == QueueOf(Removed(waiting, i), at, via)
    decreases i
  {
    if i == 0 {
      assert Removed(waiting, 0) == waiting[1..];
    } else {
      assert Head(waiting[1..], i - 1);
      RemovedQueue(waiting[1..], i - 1, at, via);
      assert Removed(waiting, i)[1..] == Removed(waiting[1..], i - 1);
      assert Removed(waiting, i)[0] == waiting[0];
    }
  }

  /** Each queue is first in, first out: a move takes the oldest packet of one queue and puts it behind
      all others of the next, if there is a next one with room, and no other queue changes. */
  lemma LeaveIsFifo(n: Net, tables: Tables, max: map<(nat, nat), nat>, i: nat, at: nat, via: nat)
    requires Head(n.waiting, i) && Routable(tables, max, n.waiting[i].via, n.waiting[i].p.dest)
    ensures var e, n' := n.waiting[i], Leave(n, tables, max, i);
            var before, after := QueueOf(n.waiting, at, via), QueueOf(n'.waiting, at, via);
            var joins := |n'.waiting| == |n.waiting| && e.via == at && tables[at][e.p.dest] == via;
            (if e.at == at && e.via == via then [e.p] else []) + after == before + if joins then [e.p] else []
  {
    hide QueueOf, QueueLength;
    var e, rest := n.waiting[i], Removed(n.waiting, i);
    RemovedQueue(n.waiting, i, at, via);
    if e.p.dest != e.via {
      AppendedQueue(rest, Entry(e.via, tables[e.via][e.p.dest], e.p), at, via);
    }
  }
}
