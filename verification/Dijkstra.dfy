/**
  The values that `createTable` computes on its way, and why they end up as hop distances and
  first hops.
 */
module Dijkstra {
  import opened Topology

  /** $INFINITY */
  const INFINITY: nat := 65535

  /** Predecessors are those assigned in this run; what earlier runs left behind is not among them. */
  datatype Search = Search(dist: map<nat, nat>, pred: map<nat, nat>, done: set<nat>)

  function Start(g: Graph, self: nat): Search
  {
    Search(map v | v in g.nodes :: if v == self then 0 else INFINITY, map[], {})
  }

  predicate Improves(g: Graph, s: Search, u: nat, v: nat)
    requires u in s.dist
  {
    v in s.dist && (u, v) in g.edges && s.dist[v] > s.dist[u] + 1
  }

  /** Relaxes all edges of `u` and marks it as done. */
  function Visit(g: Graph, s: Search, u: nat): Search
    requires u in s.dist
  {
    Search(map v | v in s.dist :: if Improves(g, s, u, v) then s.dist[u] + 1 else s.dist[v],
           map v | v in s.dist && (Improves(g, s, u, v) || v in s.pred) ::
             if Improves(g, s, u, v) then u else s.pred[v],
           s.done + {u})
  }

  ghost predicate Parent(g: Graph, s: Search, v: nat)
    requires v in s.dist
  {
    v in s.pred && s.pred[v] in s.done && s.pred[v] in s.dist && (s.pred[v], v) in g.edges
    && s.dist[v] == s.dist[s.pred[v]] + 1
  }

  ghost predicate Shape(g: Graph, self: nat, s: Search)
  {
    && self in g.nodes && s.dist.Keys == g.nodes && s.done <= g.nodes && s.pred.Keys <= g.nodes
    && s.dist[self] == 0 && forall v :: v in g.nodes ==> s.dist[v] <= INFINITY
  }

  ghost predicate ParentsOk(g: Graph, self: nat, s: Search)
    requires s.dist.Keys == g.nodes
  {
    forall v {:trigger Parent(g, s, v)} :: v in g.nodes && v != self && s.dist[v] < INFINITY ==> Parent(g, s, v)
  }

  /** Done vertices are relaxed, and no farther away than the others. */
  ghost predicate OrderOk(g: Graph, s: Search)
    requires s.dist.Keys == g.nodes && s.done <= g.nodes
  {
    && (forall u, v :: u in s.done && (u, v) in g.edges && v in g.nodes ==> s.dist[v] <= s.dist[u] + 1)
    && (forall u, v :: u in s.done && v in g.nodes && v !in s.done ==> s.dist[u] <= s.dist[v])
  }

  ghost predicate Inv(g: Graph, self: nat, s: Search)
  {
    Shape(g, self, s) && ParentsOk(g, self, s) && OrderOk(g, s)
  }

  ghost predicate Nearest(g: Graph, s: Search, u: nat)
    requires s.dist.Keys == g.nodes
  {
    u in g.nodes && u !in s.done && forall v :: v in g.nodes && v !in s.done ==> s.dist[u] <= s.dist[v]
  }

  lemma VisitKeepsOrder(g: Graph, self: nat, s: Search, u: nat)
    requires WellFormed(g) && Shape(g, self, s) && OrderOk(g, s) && Nearest(g, s, u)
    ensures Shape(g, self, Visit(g, s, u)) && OrderOk(g, Visit(g, s, u))
    ensures forall v :: v in s.done + {u} ==> Visit(g, s, u).dist[v] == s.dist[v]
  {
  }

  lemma VisitKeepsParents(g: Graph, self: nat, s: Search, u: nat)
    requires WellFormed(g) && Shape(g, self, s) && ParentsOk(g, self, s) && u in g.nodes
    requires forall v :: v in s.done + {u} ==> v in s.dist && Visit(g, s, u).dist[v] == s.dist[v]
    ensures ParentsOk(g, self, Visit(g, s, u))
  {
    var s' := Visit(g, s, u);
    forall v | v in g.nodes && v != self && s'.dist[v] < INFINITY
      ensures Parent(g, s', v)
    {
      if !Improves(g, s, u, v) {
        assert Parent(g, s, v);
      }
    }
  }

  lemma VisitKeepsInv(g: Graph, self: nat, s: Search, u: nat)
    requires WellFormed(g) && Inv(g, self, s) && Nearest(g, s, u)
    ensures Inv(g, self, Visit(g, s, u))
  {
    VisitKeepsOrder(g, self, s, u);
    VisitKeepsParents(g, self, s, u);
  }

  ghost predicate NearestEach(g: Graph, s: Search, us: seq<nat>)
    requires s.dist.Keys == g.nodes
    decreases |us|
  {
    us == [] || (Nearest(g, s, us[0]) && NearestEach(g, Visit(g, s, us[0]), us[1..]))
  }

  function VisitEach(g: Graph, s: Search, us: seq<nat>): Search
    requires s.dist.Keys == g.nodes && forall u :: u in us ==> u in g.nodes
    decreases |us|
  {
    if us == [] then s else VisitEach(g, Visit(g, s, us[0]), us[1..])
  }

  /** Once a vertex has been reached, neither its distance nor its predecessor changes any more: of several
      shortest routes the one found first stays. */
  lemma {:induction false} FirstRouteStays(g: Graph, self: nat, s: Search, us: seq<nat>, v: nat)
    requires WellFormed(g) && Inv(g, self, s) && (forall u :: u in us ==> u in g.nodes) && NearestEach(g, s, us)
    requires v in g.nodes && v != self && s.dist[v] < INFINITY
    ensures var s' := VisitEach(g, s, us);
            && v in s.pred && v in s'.dist && s'.dist[v] == s.dist[v] && v in s'.pred && s'.pred[v] == s.pred[v]
    decreases |us|
  {
    assert Parent(g, s, v);
    if us != [] {
      VisitKeepsInv(g, self, s, us[0]);
      assert !Improves(g, s, us[0], v);
      FirstRouteStays(g, self, Visit(g, s, us[0]), us[1..], v);
    }
  }

  ghost predicate Finished(g: Graph, self: nat, s: Search)
  {
    Inv(g, self, s) && s.done == g.nodes
  }

  lemma {:induction false} WalkBoundsDistance(g: Graph, self: nat, s: Search, v: nat, k: nat)
    requires WellFormed(g) && Finished(g, self, s) && Walk(g, self, v, k)
    ensures v in g.nodes && s.dist[v] <= k
    decreases k
  {
    if k > 0 {
      var w :| w in g.nodes && Walk(g, self, w, k - 1) && (w, v) in g.edges;
      WalkBoundsDistance(g, self, s, w, k - 1);
    }
  }

  lemma {:induction false} ParentsWalk(g: Graph, self: nat, s: Search, v: nat)
    requires Finished(g, self, s) && v in g.nodes && s.dist[v] < INFINITY
    ensures Walk(g, self, v, s.dist[v])
    decreases s.dist[v]
  {
    if v == self {
    } else {
      assert Parent(g, s, v);
      ParentsWalk(g, self, s, s.pred[v]);
    }
  }

  /** The vertices on the way back to the start: one for every distance. */
  ghost function Ancestors(g: Graph, self: nat, s: Search, v: nat): set<nat>
    requires Finished(g, self, s) && v in g.nodes && s.dist[v] < INFINITY
    decreases s.dist[v]
  {
    if v == self then {v}
    else
      assert Parent(g, s, v);
      {v} + Ancestors(g, self, s, s.pred[v])
  }

  lemma {:induction false} AncestorsCount(g: Graph, self: nat, s: Search, v: nat)
    requires Finished(g, self, s) && v in g.nodes && s.dist[v] < INFINITY
    ensures var a := Ancestors(g, self, s, v);
            a <= g.nodes && |a| == s.dist[v] + 1 && forall w :: w in a ==> s.dist[w] <= s.dist[v]
    decreases s.dist[v]
  {
    if v != self {
      assert Parent(g, s, v);
      AncestorsCount(g, self, s, s.pred[v]);
    }
  }

  lemma SubsetSize(a: set<nat>, b: set<nat>)
    requires a <= b
    ensures |a| <= |b|
  {
    assert b == a + (b - a);
  }

  /** Distances stay below the number of routers, so that infinity is never taken for one. */
  lemma {:induction false} ReachedIsFinite(g: Graph, self: nat, s: Search, v: nat, k: nat)
    requires WellFormed(g) && Finished(g, self, s) && |g.nodes| < INFINITY && Walk(g, self, v, k)
    ensures v in g.nodes && s.dist[v] < |g.nodes|
    decreases k
  {
    if k > 0 {
      var w :| w in g.nodes && Walk(g, self, w, k - 1) && (w, v) in g.edges;
      ReachedIsFinite(g, self, s, w, k - 1);
    }
    AncestorsCount(g, self, s, v);
    SubsetSize(Ancestors(g, self, s, v), g.nodes);
  }

  /** A finished search holds hop distances. */
  lemma DistancesAreHops(g: Graph, self: nat, s: Search, v: nat)
    requires WellFormed(g) && Finished(g, self, s) && |g.nodes| < INFINITY && Connected(g) && v in g.nodes
    ensures s.dist[v] < |g.nodes| && IsDistance(g, self, v, s.dist[v])
  {
    assert Reachable(g, self, v);
    var k: nat :| Walk(g, self, v, k);
    ReachedIsFinite(g, self, s, v, k);
    ParentsWalk(g, self, s, v);
    forall m: nat | m < s.dist[v]
      ensures !Walk(g, self, v, m)
    {
      if Walk(g, self, v, m) {
        WalkBoundsDistance(g, self, s, v, m);
      }
    }
  }

  ghost predicate AllReached(g: Graph, s: Search)
  {
    forall v :: v in g.nodes ==> v in s.dist && s.dist[v] < INFINITY
  }

  /** The walk back along predecessors that `createTable` makes for every router. */
  function FirstHop(g: Graph, self: nat, s: Search, v: nat): nat
    requires Finished(g, self, s) && AllReached(g, s) && v in g.nodes && v != self
    decreases s.dist[v]
  {
    assert Parent(g, s, v);
    if s.pred[v] == self then v else FirstHop(g, self, s, s.pred[v])
  }

  lemma {:induction false} FirstHopWalks(g: Graph, self: nat, s: Search, v: nat)
    requires WellFormed(g) && Finished(g, self, s) && AllReached(g, s) && v in g.nodes && v != self
    ensures var hop := FirstHop(g, self, s, v);
            (self, hop) in g.edges && s.dist[v] >= 1 && Walk(g, hop, v, s.dist[v] - 1)
    decreases s.dist[v]
  {
    assert Parent(g, s, v);
    if s.pred[v] != self {
      FirstHopWalks(g, self, s, s.pred[v]);
    }
  }

  /** The first hop lies on a shortest route. */
  lemma FirstHopIsShortest(g: Graph, self: nat, s: Search, v: nat)
    requires WellFormed(g) && Finished(g, self, s) && |g.nodes| < INFINITY && Connected(g)
    requires AllReached(g, s) && v in g.nodes && v != self
    ensures IsFirstHop(g, self, v, FirstHop(g, self, s, v))
  {
    DistancesAreHops(g, self, s, v);
    FirstHopWalks(g, self, s, v);
    var hop, d := FirstHop(g, self, s, v), s.dist[v] - 1;
    forall k: nat | k < d
      ensures !Walk(g, hop, v, k)
    {
      if Walk(g, hop, v, k) {
        WalkFromNeighbour(g, self, hop, v, k);
      }
    }
    assert IsDistance(g, self, v, d + 1) && IsDistance(g, hop, v, d);
  }
}
