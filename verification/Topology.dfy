/**
  Topologies of the router simulator (hupsim.pl), hop distances in them, and the relation between
  a table of first hops and the routes it leads to.
 */
module Topology {

  /** Routers are numbered. `addRoute` is called for both ends of every line of the map file, so
      edges go both ways. */
  datatype Graph = Graph(nodes: set<nat>, edges: set<(nat, nat)>)

  ghost predicate WellFormed(g: Graph)
  {
    && (forall u, v :: (u, v) in g.edges ==> u in g.nodes && v in g.nodes)
    && forall u, v :: (u, v) in g.edges ==> (v, u) in g.edges
  }

  ghost predicate Walk(g: Graph, u: nat, v: nat, k: nat)
    decreases k
  {
    if k == 0 then u == v && u in g.nodes
    else exists w :: w in g.nodes && Walk(g, u, w, k - 1) && (w, v) in g.edges
  }

  ghost predicate Connected(g: Graph)
  {
    forall u, v {:trigger Reachable(g, u, v)} :: u in g.nodes && v in g.nodes ==> Reachable(g, u, v)
  }

  ghost predicate Reachable(g: Graph, u: nat, v: nat)
  {
    exists k: nat :: Walk(g, u, v, k)
  }

  /** `d` hops lead from `u` to `v`, and no fewer do. */
  ghost predicate IsDistance(g: Graph, u: nat, v: nat, d: nat)
  {
    Walk(g, u, v, d) && forall k: nat :: k < d ==> !Walk(g, u, v, k)
  }

  lemma DistanceIsUnique(g: Graph, u: nat, v: nat, d: nat, e: nat)
    requires IsDistance(g, u, v, d) && IsDistance(g, u, v, e)
    ensures d == e
  {
  }

  lemma {:induction false} WalkEnds(g: Graph, u: nat, v: nat, k: nat)
    requires WellFormed(g) && Walk(g, u, v, k)
    ensures u in g.nodes && v in g.nodes
    decreases k
  {
    if k > 0 {
      var w :| w in g.nodes && Walk(g, u, w, k - 1) && (w, v) in g.edges;
      WalkEnds(g, u, w, k - 1);
    }
  }

  lemma {:induction false} WalkFromNeighbour(g: Graph, u: nat, w: nat, v: nat, k: nat)
    requires WellFormed(g) && (u, w) in g.edges && Walk(g, w, v, k)
    ensures Walk(g, u, v, k + 1)
    decreases k
  {
    if k == 0 {
      assert Walk(g, u, u, 0);
    } else {
      var x :| x in g.nodes && Walk(g, w, x, k - 1) && (x, v) in g.edges;
      WalkFromNeighbour(g, u, w, x, k - 1);
    }
  }

  // --------------------------------------------------------------- tables

  /** `hop` starts a shortest route from `u` to `v`. */
  ghost predicate IsFirstHop(g: Graph, u: nat, v: nat, hop: nat)
  {
    (u, hop) in g.edges && exists d: nat :: IsDistance(g, u, v, d + 1) && IsDistance(g, hop, v, d)
  }

  ghost predicate TableOk(g: Graph, u: nat, table: map<nat, nat>)
  {
    && g.nodes - {u} <= table.Keys
    && forall v {:trigger table[v]} :: v in g.nodes && v != u ==> IsFirstHop(g, u, v, table[v])
  }

  type Tables = map<nat, map<nat, nat>>

  ghost predicate TablesOk(g: Graph, tables: Tables)
  {
    && g.nodes <= tables.Keys
    && forall u {:trigger tables[u]} :: u in g.nodes ==> TableOk(g, u, tables[u])
  }

  /** Where a packet for `v` is after `n` hops from `u`; a packet that has arrived stays. */
  function After(tables: Tables, u: nat, v: nat, n: nat): nat
  {
    if n == 0 then u
    else
      var w := After(tables, u, v, n - 1);
      if w == v || w !in tables || v !in tables[w] then w else tables[w][v]
  }

  lemma HopApproaches(g: Graph, tables: Tables, u: nat, v: nat, d: nat)
    requires WellFormed(g) && TablesOk(g, tables) && IsDistance(g, u, v, d + 1)
    ensures u != v && u in tables && v in tables[u] && IsDistance(g, tables[u][v], v, d)
    ensures (u, tables[u][v]) in g.edges && tables[u][v] in g.nodes
  {
    WalkEnds(g, u, v, d + 1);
    assert u == v ==> Walk(g, u, v, 0);
    hide Walk;
    assert TableOk(g, u, tables[u]);
    assert IsFirstHop(g, u, v, tables[u][v]);
    var e: nat :| IsDistance(g, u, v, e + 1) && IsDistance(g, tables[u][v], v, e);
    DistanceIsUnique(g, u, v, e + 1, d + 1);
  }

  /** Forwarding by tables that every router computed on its own brings a packet one hop closer
      with every hop: it never loops, and arrives after exactly as many hops as the distance. */
  lemma {:induction false} ForwardingApproaches(g: Graph, tables: Tables, u: nat, v: nat, d: nat, n: nat)
    requires WellFormed(g) && TablesOk(g, tables) && IsDistance(g, u, v, d) && n <= d
    ensures IsDistance(g, After(tables, u, v, n), v, d - n)
    ensures After(tables, u, v, n) == v <==> n == d
    decreases n
  {
    hide WellFormed, TablesOk;
    if n > 0 {
      ForwardingApproaches(g, tables, u, v, d, n - 1);
      HopApproaches(g, tables, After(tables, u, v, n - 1), v, d - n);
    }
    ArrivedIffNear(g, After(tables, u, v, n), v, d - n);
  }

  /** A packet that has arrived stays where it is. */
  lemma {:induction false} ArrivedStays(g: Graph, tables: Tables, u: nat, v: nat, d: nat, n: nat)
    requires WellFormed(g) && TablesOk(g, tables) && IsDistance(g, u, v, d) && d <= n
    ensures After(tables, u, v, n) == v
    decreases n
  {
    if n == d {
      ForwardingApproaches(g, tables, u, v, d, d);
    } else {
      hide WellFormed, TablesOk, IsDistance;
      ArrivedStays(g, tables, u, v, d, n - 1);
    }
  }

  lemma ArrivedIffNear(g: Graph, u: nat, v: nat, d: nat)
    requires IsDistance(g, u, v, d)
    ensures u == v <==> d == 0
  {
    if u == v && d > 0 {
      WalkStarts(g, u, v, d);
      assert Walk(g, u, v, 0);
    }
  }

  lemma {:induction false} WalkStarts(g: Graph, u: nat, v: nat, k: nat)
    requires Walk(g, u, v, k)
    ensures u in g.nodes
    decreases k
  {
    if k > 0 {
      var w :| w in g.nodes && Walk(g, u, w, k - 1) && (w, v) in g.edges;
      WalkStarts(g, u, w, k - 1);
    }
  }
}
