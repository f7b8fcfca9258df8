/**
  The router objects of hupsim.pl. The search fields `distance`, `predecessor` and `done` belong to
  the router searched, not to the search, so one router's `createTable` overwrites what another's
  left there; only the routing tables stay.
 */
module Router {
  import opened Topology
  import opened Dijkstra

  const QUEUEMAX: nat := 10

  class NSQueue {
    const routeRef: NSRouter
    /** Bytes per second, and seconds. */
    const rate: nat
    const latency: real
    const max: nat
    /** Packets with the time at which they may leave, and the sum of their lengths. */
    var queue: seq<(seq<bv8>, real)>
    var size: nat
    var dropped: nat

    ghost predicate Valid()
      reads this
    {
      size == Bytes(queue) && |queue| <= max
    }

    constructor (routeRef: NSRouter, ratebps: nat, latency: real, queuemax: nat)
      ensures Valid() && this.routeRef == routeRef && queue == [] && dropped == 0
      ensures Carries(ratebps, latency, queuemax)
    {
      this.routeRef, rate, this.latency := routeRef, ratebps / 8, latency;
      max := if queuemax == 0 then QUEUEMAX else queuemax;
      queue, size, dropped := [], 0, 0;
    }

    ghost predicate Carries(ratebps: nat, latency: real, queuemax: nat)
    {
      rate == ratebps / 8 && this.latency == latency && max == if queuemax == 0 then QUEUEMAX else queuemax
    }

    /** A full queue drops the packet, and counts it. Otherwise the packet may leave once all bytes
        before it and its own have been sent, one latency later; a rate of zero stops the program. */
    method EnQ(pkt: seq<bv8>, vtime: real) returns (alive: bool)
      requires Valid()
      modifies this
      ensures Valid() && (alive <==> |old(queue)| >= max || rate > 0)
      ensures dropped == old(dropped) + if |old(queue)| >= max then 1 else 0
      ensures if !alive || |old(queue)| >= max then queue == old(queue)
              else queue == old(queue) + [(pkt, latency + vtime + (Bytes(old(queue)) + |pkt|) as real / rate as real)]
    {
      alive := true;
      if |queue| >= max {
        dropped := dropped + 1;
      } else if rate == 0 {
        alive := false;
      } else {
        var txTime := latency + |pkt| as real / rate as real + vtime;
        if |queue| > 0 {
          txTime := txTime + size as real / rate as real;
        }
        SumOfQuotients(Bytes(queue), |pkt|, rate);
        BytesAppend(queue, (pkt, txTime));
        queue := queue + [(pkt, txTime)];
        size := size + |pkt|;
      }
    }

    /** The head leaves, as in the loop of `run`. */
    method Shift() returns (pkt: seq<bv8>)
      requires Valid() && queue != []
      modifies this`queue, this`size
      ensures Valid() && pkt == old(queue)[0].0 && queue == old(queue)[1..]
    {
      BytesHead(queue);
      pkt := queue[0].0;
      size := size - |pkt|;
      queue := queue[1..];
    }
  }

  function Bytes(queue: seq<(seq<bv8>, real)>): nat
  {
    if queue == [] then 0 else Bytes(queue[..|queue| - 1]) + |queue[|queue| - 1].0|
  }

  lemma SumOfQuotients(a: nat, b: nat, rate: nat)
    requires rate > 0
    ensures a as real / rate as real + b as real / rate as real == (a + b) as real / rate as real
  {
  }

  lemma BytesAppend(queue: seq<(seq<bv8>, real)>, p: (seq<bv8>, real))
    ensures Bytes(queue + [p]) == Bytes(queue) + |p.0|
  {
    assert (queue + [p])[..|queue|] == queue;
  }

  lemma {:induction false} BytesHead(queue: seq<(seq<bv8>, real)>)
    requires queue != []
    ensures Bytes(queue) == |queue[0].0| + Bytes(queue[1..])
    decreases |queue|
  {
    var n := |queue| - 1;
    if n > 0 {
      BytesHead(queue[..n]);
      assert queue[..n][1..] == queue[1..][..n - 1];
      assert queue[1..][n - 1] == queue[n];
    }
  }

  class NSRouter {
    const id: nat
    /** By router number; null where there is no line. */
    var routes: seq<NSQueue?>
    var distance: nat
    var predecessor: NSRouter?
    var done: nat
    var routingTable: map<nat, NSQueue>

    constructor (id: nat)
      ensures this.id == id && routes == []
    {
      this.id := id;
      routes, distance, predecessor, done, routingTable := [], 0, null, 0, map[];
    }

    method AddRoute(router: NSRouter, ratebps: nat, latency: real, queuemax: nat)
      modifies this`routes
      ensures var q := RouteAt(routes, router.id);
              q != null && fresh(q) && q.routeRef == router && q.Carries(ratebps, latency, queuemax)
      ensures forall v: nat :: v != router.id ==>
                RouteAt(routes, v) == RouteAt(old(routes), v)
    {
      var q := new NSQueue(router, ratebps, latency, queuemax);
      if router.id >= |routes| {
        routes := routes + seq(router.id + 1 - |routes|, _ => null);
      }
      routes := routes[router.id := q];
    }

    method GetQ(dest: nat) returns (queue: NSQueue?)
      ensures queue == if dest in routingTable then routingTable[dest] else null
    {
      queue := if dest in routingTable then routingTable[dest] else null;
    }

    /** Hop numbers of the table. */
    ghost function Hops(): map<nat, nat>
      reads this`routingTable
    {
      map v | v in routingTable :: routingTable[v].routeRef.id
    }

    /** Base state: everything far away but this router. */
    method InitVertexes(vertexes: seq<NSRouter?>, ghost g: Graph)
      requires Represents(vertexes, g) && id in g.nodes
      modifies vertexes`distance, vertexes`done
      ensures Holds(vertexes, g, Start(g, id))
    {
      for u := 0 to |vertexes|
        invariant Represents(vertexes, g)
        invariant forall v :: v in g.nodes && v < u ==>
                    vertexes[v].done == 0 && vertexes[v].distance == if v == id then 0 else INFINITY
      {
        var vertex := vertexes[u];
        if vertex != null {
          vertex.done := 0;
          vertex.distance := if vertex.id == id then 0 else INFINITY;
        }
      }
    }

    method RelaxEdge(edge: NSQueue, vertexes: seq<NSRouter?>, ghost g: Graph, ghost s: Search, ghost w: nat)
      requires Holds(vertexes, g, s) && Distinct(vertexes, g) && s.dist.Keys == g.nodes
      requires id in g.nodes && vertexes[id] == this && w in g.nodes && edge.routeRef == vertexes[w]
      modifies edge.routeRef`distance, edge.routeRef`predecessor
      ensures Holds(vertexes, g, Shorten(s, id, w))
    {
      var weight := distance + 1;
      if edge.routeRef.distance > weight {
        edge.routeRef.distance := weight;
        edge.routeRef.predecessor := this;
      }
    }

    method MarkDone(vertexes: seq<NSRouter?>, ghost g: Graph, ghost s: Search)
      requires Holds(vertexes, g, s) && Distinct(vertexes, g) && id in g.nodes && vertexes[id] == this
      modifies this`done
      ensures Holds(vertexes, g, s.(done := s.done + {id}))
    {
      done := done + 1;
    }

    /** Relaxes the edges of `this` and marks it as done. */
    method Relax(vertexes: seq<NSRouter?>, ghost g: Graph, ghost s: Search)
      requires Represents(vertexes, g) && WellFormed(g) && SearchKeys(g, s) && Holds(vertexes, g, s)
      requires id in g.nodes && id < |vertexes| && vertexes[id] == this
      modifies vertexes`distance, vertexes`predecessor, this`done
      ensures Holds(vertexes, g, Visit(g, s, id))
    {
      hide Holds, ShortenedUpTo, Visit, Improves, Shorten;
      ghost var t := s;
      NothingShortened(g, s, id);
      for w := 0 to |routes|
        invariant t.dist.Keys == g.nodes
        invariant Holds(vertexes, g, t) && ShortenedUpTo(g, s, id, t, w)
      {
        var edge := routes[w];
        OneShortened(g, s, id, t, w);
        if edge != null {
          assert RouteAt(routes, w) == edge;
          assert (id, w) in g.edges;
          RelaxEdge(edge, vertexes, g, t, w);
          t := Shorten(t, id, w);
        }
      }
      AllShortened(g, s, id, t, |routes|);
      MarkDone(vertexes, g, t);
    }

    /** The search proper: as many visits as there are routers. */
    method Explore(vertexes: seq<NSRouter?>, ghost g: Graph) returns (ghost s: Search)
      requires Represents(vertexes, g) && WellFormed(g)
      requires id in g.nodes && id < |vertexes| && vertexes[id] == this && Holds(vertexes, g, Start(g, id))
      modifies vertexes`distance, vertexes`predecessor, vertexes`done
      ensures Holds(vertexes, g, s) && Finished(g, id, s)
    {
      hide Holds, Inv, Nearest, Visit, Start, SearchKeys, Below, Represents, WellFormed;
      s := Start(g, id);
      StartInv(g, id);
      for i := 0 to |vertexes|
        invariant Holds(vertexes, g, s) && Inv(g, id, s) && SearchKeys(g, s)
        invariant |s.done| == |Below(g, i)|
      {
        BelowGrows(g, i);
        NodeIff(vertexes, g, i);
        if vertexes[i] != null {
          SomeoneLeft(g, s, i);
          var next := FindNext(vertexes, g, s);
          VisitKeepsInv(g, id, s, next.id);
          VisitKeys(g, s, next.id);
          next.Relax(vertexes, g, s);
          s := Visit(g, s, next.id);
        }
      }
      BelowAll(vertexes, g);
      AllDone(g, id, s, |vertexes|);
    }

    /** For every other router, walks back along the predecessors to its first hop. */
    method FillTable(vertexes: seq<NSRouter?>, ghost g: Graph, ghost s: Search)
      requires Represents(vertexes, g) && WellFormed(g) && Connected(g) && |g.nodes| < INFINITY
      requires id in g.nodes && vertexes[id] == this && Holds(vertexes, g, s) && Finished(g, id, s) && AllReached(g, s)
      modifies this`routingTable
      ensures routingTable.Keys == g.nodes - {id}
      ensures forall v :: v in routingTable ==>
                Leads(routes, routingTable[v], FirstHop(g, id, s, v))
    {
      hide Finished, AllReached, Connected, WellFormed, FirstHop, Holds, Represents;
      routingTable := map[];
      for u := 0 to |vertexes|
        invariant routingTable.Keys == Below(g, u) - {id}
        invariant forall v :: v in routingTable ==>
                    v in g.nodes && v != id &&
                    Leads(routes, routingTable[v], FirstHop(g, id, s, v))
      {
        var vertex := vertexes[u];
        BelowGrows(g, u);
        NodeIff(vertexes, g, u);
        if vertex != null && vertex.id != id {
          var startRoute := WalkBack(vertexes, g, s, u);
          HopHasQueue(vertexes, g, id, s, u);
          routingTable := routingTable[vertex.id := routes[startRoute.id]];
        }
      }
      BelowAll(vertexes, g);
    }

    method WalkBack(vertexes: seq<NSRouter?>, ghost g: Graph, ghost s: Search, u: nat) returns (startRoute: NSRouter)
      requires Represents(vertexes, g) && Holds(vertexes, g, s)
      requires id in g.nodes && vertexes[id] == this && Finished(g, id, s) && AllReached(g, s)
      requires u in g.nodes && u != id
      ensures startRoute.id == FirstHop(g, id, s, u)
    {
      hide Represents, Holds, Finished, AllReached, FirstHop;
      PredecessorField(vertexes, g, id, s, u);
      startRoute := vertexes[u];
      ghost var v := u;
      while startRoute.predecessor.id != id
        invariant v in g.nodes && v != id && v < |vertexes| && v in s.dist
        invariant startRoute == vertexes[v] && startRoute.id == v
        invariant v in s.pred && s.pred[v] in g.nodes && s.pred[v] < |vertexes| && s.pred[v] in s.dist
        invariant s.dist[s.pred[v]] < s.dist[v] && startRoute.predecessor == vertexes[s.pred[v]]
        invariant startRoute.predecessor != null && startRoute.predecessor.id == s.pred[v]
        invariant FirstHop(g, id, s, v) == if s.pred[v] == id then v else FirstHop(g, id, s, s.pred[v])
        invariant FirstHop(g, id, s, u) == FirstHop(g, id, s, v)
        decreases s.dist[v]
      {
        startRoute := startRoute.predecessor;
        v := s.pred[v];
        PredecessorField(vertexes, g, id, s, v);
      }
    }

    method CreateTable(vertexes: seq<NSRouter?>, ghost g: Graph)
      requires Represents(vertexes, g) && WellFormed(g) && Connected(g) && |g.nodes| < INFINITY
      requires id in g.nodes && vertexes[id] == this
      modifies vertexes`distance, vertexes`predecessor, vertexes`done, this`routingTable
      ensures TableOk(g, id, Hops())
      ensures forall v :: v in routingTable ==> routingTable[v] in routes
    {
      hide Holds, Finished;
      InitVertexes(vertexes, g);
      ghost var s := Explore(vertexes, g);
      EveryoneReached(g, id, s);
      FillTable(vertexes, g, s);
      TableFromHops(vertexes, g, s);
    }

    lemma TableFromHops(vertexes: seq<NSRouter?>, g: Graph, s: Search)
      requires Represents(vertexes, g) && WellFormed(g) && Connected(g) && |g.nodes| < INFINITY
      requires id in g.nodes && vertexes[id] == this && Finished(g, id, s) && AllReached(g, s)
      requires routingTable.Keys == g.nodes - {id}
      requires forall v :: v in routingTable ==>
                 Leads(routes, routingTable[v], FirstHop(g, id, s, v))
      ensures TableOk(g, id, Hops())
    {
      hide Finished, AllReached, Connected, FirstHop, IsFirstHop;
      forall v | v in g.nodes && v != id
        ensures v in Hops() && IsFirstHop(g, id, v, Hops()[v])
      {
        FirstHopIsShortest(g, id, s, v);
        FirstHopWalks(g, id, s, v);
        assert v in routingTable;
      }
    }
  }

  /** The nearest router not done yet, the first of them in the list. */
  method FindNext(vertexes: seq<NSRouter?>, ghost g: Graph, ghost s: Search) returns (next: NSRouter)
    requires Represents(vertexes, g) && Holds(vertexes, g, s)
    requires SearchKeys(g, s) && !(g.nodes <= s.done)
    ensures next.id in g.nodes && next.id < |vertexes| && vertexes[next.id] == next && Nearest(g, s, next.id)
  {
    var found: NSRouter? := null;
    var min := INFINITY + 1;
    for u := 0 to |vertexes|
      invariant found == null ==> min == INFINITY + 1 && forall v :: v in g.nodes && v < u ==> v in s.done
      invariant found != null ==>
                  && found.id in g.nodes && found.id !in s.done
                  && vertexes[found.id] == found && min == s.dist[found.id]
                  && forall v :: v in g.nodes && v < u && v !in s.done ==> min <= s.dist[v]
    {
      var vertexNext := vertexes[u];
      if vertexNext != null {
        assert HoldsAt(vertexes, s, u);
        if vertexNext.done == 0 && vertexNext.distance < min {
          found := vertexNext;
          min := vertexNext.distance;
        }
      }
    }
    next := found;
  }

  lemma StartInv(g: Graph, self: nat)
    requires self in g.nodes
    ensures Inv(g, self, Start(g, self)) && SearchKeys(g, Start(g, self)) && Start(g, self).done == {}
    ensures Below(g, 0) == {}
  {
  }

  ghost predicate SearchKeys(g: Graph, s: Search)
  {
    && s.dist.Keys == g.nodes && s.done <= g.nodes && s.pred.Keys <= g.nodes
    && forall v :: v in g.nodes ==> s.dist[v] <= INFINITY
  }

  function Below(g: Graph, i: nat): set<nat>
  {
    set u | u in g.nodes && u < i
  }

  lemma BelowGrows(g: Graph, i: nat)
    ensures Below(g, i + 1) == if i in g.nodes then Below(g, i) + {i} else Below(g, i)
    ensures i !in Below(g, i)
  {
  }

  lemma SomeoneLeft(g: Graph, s: Search, i: nat)
    requires SearchKeys(g, s) && |s.done| == |Below(g, i)| && i in g.nodes
    ensures !(g.nodes <= s.done)
  {
    SubsetSize(Below(g, i) + {i}, g.nodes);
    if g.nodes <= s.done {
      SubsetSize(g.nodes, s.done);
    }
  }

  lemma VisitKeys(g: Graph, s: Search, u: nat)
    requires SearchKeys(g, s) && u in g.nodes && Nearest(g, s, u)
    ensures s.dist.Keys == g.nodes && SearchKeys(g, Visit(g, s, u)) && |Visit(g, s, u).done| == |s.done| + 1
  {
  }

  lemma AllDone(g: Graph, self: nat, s: Search, n: nat)
    requires Inv(g, self, s) && |s.done| == |Below(g, n)| && Below(g, n) == g.nodes
    ensures Finished(g, self, s)
  {
    assert g.nodes == s.done + (g.nodes - s.done);
  }

  lemma EveryoneReached(g: Graph, self: nat, s: Search)
    requires WellFormed(g) && Connected(g) && |g.nodes| < INFINITY && Finished(g, self, s)
    ensures AllReached(g, s)
  {
    forall v | v in g.nodes
      ensures v in s.dist && s.dist[v] < INFINITY
    {
      DistancesAreHops(g, self, s, v);
    }
  }

  lemma PredecessorField(vertexes: seq<NSRouter?>, g: Graph, self: nat, s: Search, v: nat)
    requires Represents(vertexes, g) && Holds(vertexes, g, s) && Finished(g, self, s) && AllReached(g, s)
    requires v in g.nodes && v != self
    ensures v in s.pred && s.pred[v] in g.nodes && v in s.dist && s.pred[v] in s.dist && s.dist[s.pred[v]] < s.dist[v]
    ensures v < |vertexes| && vertexes[v] != null && vertexes[v].id == v && s.pred[v] < |vertexes|
    ensures vertexes[s.pred[v]] != null && vertexes[s.pred[v]].id == s.pred[v]
    ensures vertexes[v].predecessor == vertexes[s.pred[v]]
    ensures FirstHop(g, self, s, v) == if s.pred[v] == self then v else FirstHop(g, self, s, s.pred[v])
  {
    assert Parent(g, s, v);
    assert HoldsAt(vertexes, s, v);
  }

  lemma NodeIff(vertexes: seq<NSRouter?>, g: Graph, u: nat)
    requires Represents(vertexes, g) && u < |vertexes|
    ensures vertexes[u] != null <==> u in g.nodes
    ensures vertexes[u] != null ==> vertexes[u].id == u
  {
  }

  /** "No queue" is never met: the first hop is a neighbour. */
  lemma HopHasQueue(vertexes: seq<NSRouter?>, g: Graph, self: nat, s: Search, u: nat)
    requires Represents(vertexes, g) && WellFormed(g) && Finished(g, self, s) && AllReached(g, s)
    requires self in g.nodes && u in g.nodes && u != self
    ensures var hop := FirstHop(g, self, s, u);
            hop < |vertexes[self].routes| && vertexes[self].routes[hop] != null
  {
    hide Finished, AllReached;
    FirstHopWalks(g, self, s, u);
  }

  lemma BelowAll(vertexes: seq<NSRouter?>, g: Graph)
    requires Represents(vertexes, g)
    ensures Below(g, |vertexes|) == g.nodes
  {
  }

  /** One edge at a time. */
  function Shorten(s: Search, u: nat, w: nat): Search
    requires u in s.dist && w in s.dist
  {
    if s.dist[w] > s.dist[u] + 1 then s.(dist := s.dist[w := s.dist[u] + 1], pred := s.pred[w := u]) else s
  }

  ghost predicate ShortenedUpTo(g: Graph, s: Search, u: nat, t: Search, w: nat)
    requires u in s.dist
  {
    && t.done == s.done && t.dist.Keys == s.dist.Keys
    && (forall v: nat :: v in s.dist ==>
          t.dist[v] == if v < w && Improves(g, s, u, v) then s.dist[u] + 1 else s.dist[v])
    && (forall v: nat :: v in t.pred <==> (v in s.pred || (v < w && Improves(g, s, u, v))))
    && (forall v: nat :: v in t.pred ==> t.pred[v] == if v < w && Improves(g, s, u, v) then u else s.pred[v])
  }

  lemma NothingShortened(g: Graph, s: Search, u: nat)
    requires u in s.dist
    ensures ShortenedUpTo(g, s, u, s, 0)
  {
  }

  lemma OneShortened(g: Graph, s: Search, u: nat, t: Search, w: nat)
    requires u in s.dist && ShortenedUpTo(g, s, u, t, w)
    ensures if (u, w) in g.edges && w in s.dist
            then u in t.dist && w in t.dist && ShortenedUpTo(g, s, u, Shorten(t, u, w), w + 1)
            else ShortenedUpTo(g, s, u, t, w + 1)
    ensures (u, w) in g.edges && w in s.dist ==> Shorten(t, u, w).dist.Keys == t.dist.Keys
  {
  }

  lemma AllShortened(g: Graph, s: Search, u: nat, t: Search, n: nat)
    requires u in s.dist && s.pred.Keys <= s.dist.Keys && ShortenedUpTo(g, s, u, t, n)
    requires forall v: nat :: (u, v) in g.edges ==> v < n
    ensures t.(done := t.done + {u}) == Visit(g, s, u)
  {
    var r := Visit(g, s, u);
    assert t.dist == r.dist;
    assert t.pred.Keys == r.pred.Keys;
    assert t.pred == r.pred;
  }

  function RouteAt(routes: seq<NSQueue?>, v: nat): NSQueue?
  {
    if v < |routes| then routes[v] else null
  }

  ghost predicate Leads(routes: seq<NSQueue?>, q: NSQueue, hop: nat)
  {
    hop < |routes| && routes[hop] == q
  }

  /** Every router that was there is where it was. */
  ghost predicate Extends(vertexes: seq<NSRouter?>, more: seq<NSRouter?>)
  {
    forall u :: 0 <= u < |vertexes| && vertexes[u] != null ==> u < |more| && more[u] == vertexes[u]
  }

  /** A router that a line names for the first time is made. */
  method EnsureRouter(vertexes: seq<NSRouter?>, u: nat, ghost g: Graph) returns (more: seq<NSRouter?>)
    requires Represents(vertexes, g) && WellFormed(g)
    ensures Represents(more, Graph(g.nodes + {u}, g.edges)) && Extends(vertexes, more)
    ensures forall v :: 0 <= v < |more| && more[v] != null ==> v == u || more[v] in vertexes
    ensures (u < |vertexes| && vertexes[u] != null) || fresh(more[u])
  {
    more := vertexes;
    if u >= |vertexes| || vertexes[u] == null {
      var router := new NSRouter(u);
      if u >= |more| {
        more := more + seq(u + 1 - |more|, _ => null);
      }
      more := more[u := router];
    }
    assert u in g.nodes ==> g.nodes + {u} == g.nodes;
  }

  /** One line of the map file: a route either way between two routers, made if need be. */
  method AddLine(vertexes: seq<NSRouter?>, u: nat, v: nat, ratebps: nat, latency: real, queuemax: nat, ghost g: Graph)
    returns (more: seq<NSRouter?>)
    requires Represents(vertexes, g) && WellFormed(g)
    modifies vertexes`routes
    ensures Extends(vertexes, more)
    ensures Represents(more, Graph(g.nodes + {u, v}, g.edges + {(u, v), (v, u)}))
    ensures WellFormed(Graph(g.nodes + {u, v}, g.edges + {(u, v), (v, u)}))
    ensures RouteAt(more[u].routes, v) != null && RouteAt(more[u].routes, v).Carries(ratebps, latency, queuemax)
    ensures RouteAt(more[v].routes, u) != null && RouteAt(more[v].routes, u).Carries(ratebps, latency, queuemax)
  {
    hide Represents, WellFormed;
    more := EnsureRouter(vertexes, v, g);
    ghost var g1 := Graph(g.nodes + {v}, g.edges);
    assert WellFormed(g1) by { NodeIsWellFormed(g, v); }
    more := EnsureRouter(more, u, g1);
    ghost var g2 := Graph(g.nodes + {u, v}, g.edges);
    assert g1.nodes + {u} == g2.nodes;
    var a, b := more[u], more[v];
    AddEdge(more, b, a, ratebps, latency, queuemax, g2);
    AddEdge(more, a, b, ratebps, latency, queuemax, Graph(g2.nodes, g2.edges + {(v, u)}));
    assert g2.edges + {(v, u)} + {(u, v)} == g.edges + {(u, v), (v, u)};
    LineIsWellFormed(g, u, v);
  }

  lemma NodeIsWellFormed(g: Graph, u: nat)
    requires WellFormed(g)
    ensures WellFormed(Graph(g.nodes + {u}, g.edges))
  {
  }

  lemma LineIsWellFormed(g: Graph, u: nat, v: nat)
    requires WellFormed(g)
    ensures WellFormed(Graph(g.nodes + {u, v}, g.edges + {(u, v), (v, u)}))
  {
  }

  method AddEdge(ghost vertexes: seq<NSRouter?>, a: NSRouter, b: NSRouter, ratebps: nat, latency: real, queuemax: nat,
        ghost g: Graph)
    requires Represents(vertexes, g) && a.id in g.nodes && b.id in g.nodes
    requires vertexes[a.id] == a && vertexes[b.id] == b
    modifies a`routes
    ensures Represents(vertexes, Graph(g.nodes, g.edges + {(a.id, b.id)}))
    ensures var q := RouteAt(a.routes, b.id); q != null && fresh(q) && q.Carries(ratebps, latency, queuemax)
    ensures forall w: nat :: w != b.id ==> RouteAt(a.routes, w) == RouteAt(old(a.routes), w)
  {
    a.AddRoute(b, ratebps, latency, queuemax);
  }

  /** The loop over all routers that readies the simulator: each computes its own table, over the
      search fields that the one before has left behind. */
  method CreateTables(vertexes: seq<NSRouter?>, ghost g: Graph)
    requires Represents(vertexes, g) && WellFormed(g) && Connected(g) && |g.nodes| < INFINITY
    modifies vertexes`distance, vertexes`predecessor, vertexes`done, vertexes`routingTable
    ensures TablesOk(g, AllTables(vertexes, g))
  {
    hide Connected, WellFormed, TableOk;
    for u := 0 to |vertexes|
      invariant forall v :: v in g.nodes && v < u ==>
                  v < |vertexes| && vertexes[v] != null && TableOk(g, v, vertexes[v].Hops())
    {
      NodeIff(vertexes, g, u);
      if vertexes[u] != null {
        vertexes[u].CreateTable(vertexes, g);
      }
    }
  }

  ghost function AllTables(vertexes: seq<NSRouter?>, g: Graph): Tables
    requires Distinct(vertexes, g)
    reads vertexes`routingTable
  {
    map u | u in g.nodes :: vertexes[u].Hops()
  }

  ghost predicate Represents(vertexes: seq<NSRouter?>, g: Graph)
    reads vertexes`routes
  {
    && (forall u :: u in g.nodes <==> 0 <= u < |vertexes| && vertexes[u] != null)
    && (forall u :: u in g.nodes ==> vertexes[u].id == u)
    && (forall u, v: nat :: u in g.nodes ==>
          ((u, v) in g.edges <==> RouteAt(vertexes[u].routes, v) != null))
    && (forall u, v: nat {:trigger RouteAt(vertexes[u].routes, v)} ::
          u in g.nodes && RouteAt(vertexes[u].routes, v) != null ==>
          v < |vertexes| && RouteAt(vertexes[u].routes, v).routeRef == vertexes[v])
  }

  ghost predicate HoldsAt(vertexes: seq<NSRouter?>, s: Search, v: nat)
    requires v < |vertexes| && vertexes[v] != null && v in s.dist
    reads vertexes`distance, vertexes`predecessor, vertexes`done
  {
    && vertexes[v].distance == s.dist[v]
    && (vertexes[v].done != 0 <==> v in s.done)
    && (v in s.pred ==> s.pred[v] < |vertexes| && vertexes[v].predecessor == vertexes[s.pred[v]])
  }

  /** The fields of the routers hold what the search has found. */
  ghost predicate Holds(vertexes: seq<NSRouter?>, g: Graph, s: Search)
    reads vertexes`distance, vertexes`predecessor, vertexes`done
  {
    forall v :: v in g.nodes ==> v < |vertexes| && vertexes[v] != null && v in s.dist && HoldsAt(vertexes, s, v)
  }

  ghost predicate Distinct(vertexes: seq<NSRouter?>, g: Graph)
  {
    forall u :: u in g.nodes ==> u < |vertexes| && vertexes[u] != null && vertexes[u].id == u
  }
}
