/**
 * The directed graph the engine builds with NetworkX (`nx.DiGraph`): nodes in
 * insertion order, at most one attributed edge per ordered pair, and the
 * reachability queries (`descendants`, `ancestors`) computed from the edges.
 */
module Graphs {
  import opened Wrappers
  import opened Collections

  /** The attributes `build_graph` gives a function or class node. */
  datatype NodeAttrs =
    NodeAttrs(labelText: string, kind: string, file: string, language: string, lineStart: int, complexity: int)

  /** The attributes of an edge: its relation ("calls", "extends", "depends_on") and weight. */
  datatype EdgeAttrs = EdgeAttrs(kind: string, weight: int)

  datatype Edge = Edge(source: string, target: string, attrs: EdgeAttrs)

  /**
   * `nodes` is the node insertion order; `attrs` holds the attribute record
   * of every node added through `add_node` (a node created only as an edge
   * endpoint has an empty attribute dict and no entry); `edges` is the edge
   * insertion order.
   */
  datatype DiGraph = DiGraph(nodes: seq<string>, attrs: map<string, NodeAttrs>, edges: seq<Edge>)

  predicate Links(e: Edge, u: string, v: string) {
    e.source == u && e.target == v
  }

  ghost predicate WellFormed(g: DiGraph) {
    NoDuplicates(g.nodes)
    && (forall n | n in g.attrs :: n in g.nodes)
    && (forall e | e in g.edges :: e.source in g.nodes && e.target in g.nodes)
    && (forall i, j | 0 <= i < j < |g.edges| :: !Links(g.edges[j], g.edges[i].source, g.edges[i].target))
  }

  function NodeSet(g: DiGraph): set<string> {
    set n | n in g.nodes
  }

  function Empty(): (g: DiGraph)
    ensures WellFormed(g) && NodeSet(g) == {} && g.edges == []
  {
    DiGraph([], map[], [])
  }

  predicate HasEdge(g: DiGraph, u: string, v: string) {
    exists e | e in g.edges :: Links(e, u, v)
  }

  // ---------------------------------------------------------------------------
  // Updates

  /** `G.add_node(n, **a)`: a new node goes last; an existing one gets the new attributes. */
  function AddNode(g: DiGraph, n: string, a: NodeAttrs): (r: DiGraph)
    requires WellFormed(g)
    ensures WellFormed(r)
    ensures NodeSet(r) == NodeSet(g) + {n}
    ensures r.nodes == if n in g.nodes then g.nodes else g.nodes + [n]
    ensures r.attrs == g.attrs[n := a] && r.edges == g.edges
  {
    if n in g.nodes then g.(attrs := g.attrs[n := a])
    else g.(nodes := g.nodes + [n], attrs := g.attrs[n := a])
  }

  /** Adds `n` without attributes when it is missing (the implicit endpoint creation of `add_edge`). */
  function EnsureNode(g: DiGraph, n: string): (r: DiGraph)
    requires WellFormed(g)
    ensures WellFormed(r)
    ensures NodeSet(r) == NodeSet(g) + {n}
    ensures forall x :: x in r.nodes <==> x in g.nodes || x == n
    ensures r.nodes == if n in g.nodes then g.nodes else g.nodes + [n]
    ensures r.attrs == g.attrs && r.edges == g.edges
  {
    if n in g.nodes then g else g.(nodes := g.nodes + [n])
  }

  /** The position of the edge `u -> v`, if there is one. */
  function EdgeIndex(edges: seq<Edge>, u: string, v: string): (r: Option<nat>)
    ensures r.Some? ==> r.value < |edges| && Links(edges[r.value], u, v)
    ensures r.None? ==> forall e | e in edges :: !Links(e, u, v)
  {
    if edges == [] then None
    else if Links(edges[|edges| - 1], u, v) then Some(|edges| - 1)
    else EdgeIndex(edges[..|edges| - 1], u, v)
  }

  /**
   * `G.add_edge(u, v, **a)`: missing endpoints are added (`u` first), an
   * existing edge keeps its place and takes the new attributes, a new edge
   * goes last.
   */
  function AddEdge(g: DiGraph, u: string, v: string, a: EdgeAttrs): (r: DiGraph)
    requires WellFormed(g)
    ensures WellFormed(r)
    ensures NodeSet(r) == NodeSet(g) + {u, v}
    ensures r.attrs == g.attrs
    ensures Edge(u, v, a) in r.edges
    ensures HasEdge(g, u, v) ==> |r.edges| == |g.edges|
    ensures !HasEdge(g, u, v) ==> r.edges == g.edges + [Edge(u, v, a)]
    ensures forall i | 0 <= i < |g.edges| && !Links(g.edges[i], u, v) :: r.edges[i] == g.edges[i]
    ensures forall x, y :: HasEdge(r, x, y) <==> HasEdge(g, x, y) || (x == u && y == v)
  {
    var g1 := EnsureNode(EnsureNode(g, u), v);
    assert NodeSet(g1) == NodeSet(g) + {u, v};
    match EdgeIndex(g.edges, u, v)
    case Some(i) =>
      ReplaceEdgeFacts(g, g1, i, Edge(u, v, a));
      assert g.edges[i] in g.edges && HasEdge(g, u, v);
      var r := g1.(edges := g.edges[i := Edge(u, v, a)]);
      assert r.edges[i] in r.edges;
      assert NodeSet(r) == NodeSet(g1);
      forall j | 0 <= j < |g.edges| && !Links(g.edges[j], u, v)
        ensures r.edges[j] == g.edges[j]
      {
        assert j != i;
      }
      r
    case None =>
      AppendEdgeFacts(g, g1, Edge(u, v, a));
      var r := g1.(edges := g.edges + [Edge(u, v, a)]);
      assert NodeSet(r) == NodeSet(g1);
      r
  }

  lemma ReplaceEdgeFacts(g: DiGraph, g1: DiGraph, i: nat, e: Edge)
    requires WellFormed(g)
    requires forall n :: n in g1.nodes <==> n in g.nodes || n == e.source || n == e.target
    requires NoDuplicates(g1.nodes) && g1.attrs == g.attrs
    requires i < |g.edges| && Links(g.edges[i], e.source, e.target)
    ensures var r := g1.(edges := g.edges[i := e]);
      WellFormed(r) && forall x, y :: HasEdge(r, x, y) <==> HasEdge(g, x, y)
  {
    var r := g1.(edges := g.edges[i := e]);
    forall x, y
      ensures HasEdge(r, x, y) <==> HasEdge(g, x, y)
    {
      if HasEdge(r, x, y) {
        var k :| 0 <= k < |r.edges| && Links(r.edges[k], x, y);
        assert g.edges[k] in g.edges && Links(g.edges[k], x, y);
      }
      if HasEdge(g, x, y) {
        var k :| 0 <= k < |g.edges| && Links(g.edges[k], x, y);
        assert r.edges[k] in r.edges && Links(r.edges[k], x, y);
      }
    }
    forall f | f in r.edges
      ensures f.source in r.nodes && f.target in r.nodes
    {
      var k :| 0 <= k < |r.edges| && r.edges[k] == f;
      if k != i {
        assert g.edges[k] in g.edges;
      }
    }
    forall j, k | 0 <= j < k < |r.edges|
      ensures !Links(r.edges[k], r.edges[j].source, r.edges[j].target)
    {
      assert Links(r.edges[j], g.edges[j].source, g.edges[j].target);
      assert Links(r.edges[k], g.edges[k].source, g.edges[k].target);
    }
    assert forall n | n in r.attrs :: n in r.nodes;
  }

  lemma AppendEdgeFacts(g: DiGraph, g1: DiGraph, e: Edge)
    requires WellFormed(g)
    requires forall n :: n in g1.nodes <==> n in g.nodes || n == e.source || n == e.target
    requires NoDuplicates(g1.nodes) && g1.attrs == g.attrs
    requires forall f | f in g.edges :: !Links(f, e.source, e.target)
    ensures var r := g1.(edges := g.edges + [e]);
      WellFormed(r) && forall x, y :: HasEdge(r, x, y) <==> HasEdge(g, x, y) || (x == e.source && y == e.target)
  {
    var r := g1.(edges := g.edges + [e]);
    forall x, y
      ensures HasEdge(r, x, y) <==> HasEdge(g, x, y) || (x == e.source && y == e.target)
    {
      if HasEdge(r, x, y) {
        var k :| 0 <= k < |r.edges| && Links(r.edges[k], x, y);
        if k < |g.edges| {
          assert g.edges[k] in g.edges && Links(g.edges[k], x, y);
        }
      }
      if HasEdge(g, x, y) {
        var k :| 0 <= k < |g.edges| && Links(g.edges[k], x, y);
        assert r.edges[k] in r.edges && Links(r.edges[k], x, y);
      }
      if x == e.source && y == e.target {
        assert r.edges[|g.edges|] in r.edges;
      }
    }
    forall i, j | 0 <= i < j < |r.edges|
      ensures !Links(r.edges[j], r.edges[i].source, r.edges[i].target)
    {
      if j == |g.edges| {
        assert g.edges[i] in g.edges;
      }
    }
    forall f | f in r.edges
      ensures f.source in r.nodes && f.target in r.nodes
    {
      if f in g.edges {
      }
    }
    assert forall n | n in r.attrs :: n in r.nodes;
  }

  // ---------------------------------------------------------------------------
  // Degrees and neighbourhoods

  function SourceOf(e: Edge): string { e.source }

  function TargetOf(e: Edge): string { e.target }

  /** `G.in_degree(n)`: the edges into `n`. */
  function InDegree(g: DiGraph, n: string): nat {
    KeyCount(g.edges, TargetOf, n)
  }

  /** `G.out_degree(n)`: the edges out of `n`. */
  function OutDegree(g: DiGraph, n: string): nat {
    KeyCount(g.edges, SourceOf, n)
  }

  /** Every edge has one source and one target among the nodes, so the degrees each add up to the edge count. */
  lemma DegreeSums(g: DiGraph)
    requires WellFormed(g)
    ensures SumKeyCounts(g.edges, SourceOf, g.nodes) == |g.edges|
    ensures SumKeyCounts(g.edges, TargetOf, g.nodes) == |g.edges|
  {
    KeyCountsPartition(g.edges, SourceOf, g.nodes);
    KeyCountsPartition(g.edges, TargetOf, g.nodes);
  }

  /**
   * `G.edges(data=True)`: the edges grouped by source in node order, each
   * group in insertion order.
   */
  function EdgesBySource(g: DiGraph, sources: seq<string>): seq<Edge> {
    if sources == [] then []
    else EdgesBySource(g, sources[..|sources| - 1]) + KeyFilter(g.edges, SourceOf, sources[|sources| - 1])
  }

  lemma {:induction false} EdgesBySourceLength(g: DiGraph, sources: seq<string>)
    ensures |EdgesBySource(g, sources)| == SumKeyCounts(g.edges, SourceOf, sources)
  {
    if sources != [] {
      EdgesBySourceLength(g, sources[..|sources| - 1]);
    }
  }

  /** Listing the edges source by source lists each edge: as many as there are, and the same ones. */
  lemma ExportedEdges(g: DiGraph)
    requires WellFormed(g)
    ensures |EdgesBySource(g, g.nodes)| == |g.edges|
    ensures forall e :: e in EdgesBySource(g, g.nodes) <==> e in g.edges
  {
    EdgesBySourceLength(g, g.nodes);
    DegreeSums(g);
    EdgesBySourceMembers(g, g.nodes);
  }

  lemma {:induction false} EdgesBySourceMembers(g: DiGraph, sources: seq<string>)
    ensures forall e :: e in EdgesBySource(g, sources) <==> e in g.edges && e.source in sources
  {
    if sources != [] {
      var init := sources[..|sources| - 1];
      var last := sources[|sources| - 1];
      EdgesBySourceMembers(g, init);
      KeyFilterMembers(g.edges, SourceOf, last);
    }
  }

  /** One step along the edges from `s`: forward to successors, backward to predecessors. */
  function Step(g: DiGraph, s: set<string>, forward: bool): set<string> {
    if forward then (set e | e in g.edges && e.source in s :: e.target)
    else (set e | e in g.edges && e.target in s :: e.source)
  }

  lemma StepWithin(g: DiGraph, s: set<string>, forward: bool)
    requires WellFormed(g)
    ensures Step(g, s, forward) <= NodeSet(g)
  {
  }

  lemma StepMonotone(g: DiGraph, s: set<string>, t: set<string>, forward: bool)
    requires s <= t
    ensures Step(g, s, forward) <= Step(g, t, forward)
  {
  }

  predicate Adjacent(g: DiGraph, u: string, v: string, forward: bool) {
    if forward then HasEdge(g, u, v) else HasEdge(g, v, u)
  }

  lemma StepIff(g: DiGraph, s: set<string>, v: string, forward: bool)
    ensures v in Step(g, s, forward) <==> exists u | u in s :: Adjacent(g, u, v, forward)
  {
    if v in Step(g, s, forward) {
      var e :| e in g.edges && (if forward then e.source in s && e.target == v else e.target in s && e.source == v);
      var u := if forward then e.source else e.target;
      assert Adjacent(g, u, v, forward);
    }
    if exists u | u in s :: Adjacent(g, u, v, forward) {
      var u :| u in s && Adjacent(g, u, v, forward);
      var e :| e in g.edges && (if forward then Links(e, u, v) else Links(e, v, u));
      assert v in Step(g, s, forward);
    }
  }

  /** `G.predecessors(n)`: the sources of the edges into `n`, in edge order. */
  function Predecessors(g: DiGraph, n: string): (r: seq<string>)
    ensures forall x :: x in r <==> x in Step(g, {n}, false)
  {
    var es := KeyFilter(g.edges, TargetOf, n);
    KeyFilterMembers(g.edges, TargetOf, n);
    var r := seq(|es|, i requires 0 <= i < |es| => es[i].source);
    assert forall x :: x in r ==> x in Step(g, {n}, false) by {
      forall x | x in r
        ensures x in Step(g, {n}, false)
      {
        var i :| 0 <= i < |r| && r[i] == x;
        assert es[i] in es;
      }
    }
    assert forall x :: x in Step(g, {n}, false) ==> x in r by {
      forall x | x in Step(g, {n}, false)
        ensures x in r
      {
        var e :| e in g.edges && e.target in {n} && e.source == x;
        assert e in es;
        var i :| 0 <= i < |es| && es[i] == e;
        assert r[i] == x;
      }
    }
    r
  }

  /** `G.successors(n)`: the targets of the edges out of `n`, in edge order. */
  function Successors(g: DiGraph, n: string): (r: seq<string>)
    ensures forall x :: x in r <==> x in Step(g, {n}, true)
  {
    var es := KeyFilter(g.edges, SourceOf, n);
    KeyFilterMembers(g.edges, SourceOf, n);
    var r := seq(|es|, i requires 0 <= i < |es| => es[i].target);
    assert forall x :: x in r ==> x in Step(g, {n}, true) by {
      forall x | x in r
        ensures x in Step(g, {n}, true)
      {
        var i :| 0 <= i < |r| && r[i] == x;
        assert es[i] in es;
      }
    }
    assert forall x :: x in Step(g, {n}, true) ==> x in r by {
      forall x | x in Step(g, {n}, true)
        ensures x in r
      {
        var e :| e in g.edges && e.source in {n} && e.target == x;
        assert e in es;
        var i :| 0 <= i < |es| && es[i] == e;
        assert r[i] == x;
      }
    }
    r
  }

  // ---------------------------------------------------------------------------
  // Reachability

  lemma SmallerDifference(all: set<string>, s: set<string>, next: set<string>)
    requires next <= all && !(next <= s)
    ensures |all - (s + next)| < |all - s|
  {
    var x :| x in next && x !in s;
    var a := all - (s + next);
    var b := all - s;
    assert b == a + (b - a) && x in b - a;
    assert |b| == |a| + |b - a|;
  }

  /** The nodes reachable from `s` (including `s`): the least superset of `s` closed under `Step`. */
  function Closure(g: DiGraph, s: set<string>, forward: bool): (r: set<string>)
    requires WellFormed(g) && s <= NodeSet(g)
    ensures s <= r <= NodeSet(g)
    ensures Step(g, r, forward) <= r
    decreases |NodeSet(g) - s|
  {
    var next := Step(g, s, forward);
    StepWithin(g, s, forward);
    if next <= s then s
    else
      SmallerDifference(NodeSet(g), s, next);
      Closure(g, s + next, forward)
  }

  /** Every set that contains `s` and is closed under `Step` contains the closure. */
  lemma {:induction false} ClosureLeast(g: DiGraph, s: set<string>, t: set<string>, forward: bool)
    requires WellFormed(g) && s <= NodeSet(g)
    requires s <= t && Step(g, t, forward) <= t
    ensures Closure(g, s, forward) <= t
    decreases |NodeSet(g) - s|
  {
    var next := Step(g, s, forward);
    StepWithin(g, s, forward);
    if !(next <= s) {
      StepMonotone(g, s, t, forward);
      SmallerDifference(NodeSet(g), s, next);
      ClosureLeast(g, s + next, t, forward);
    }
  }

  /** `p` follows edges (forward) or reversed edges (backward) from `p[0]` to its last node. */
  predicate IsPath(g: DiGraph, p: seq<string>, forward: bool) {
    |p| >= 1 && forall i | 0 <= i < |p| - 1 :: Adjacent(g, p[i], p[i + 1], forward)
  }

  /** A path extended at its front by a neighbour of its first node. */
  lemma PathCons(g: DiGraph, u: string, q: seq<string>, forward: bool) returns (p: seq<string>)
    requires IsPath(g, q, forward) && Adjacent(g, u, q[0], forward)
    ensures p == [u] + q && IsPath(g, p, forward)
    ensures p[0] == u && p[|p| - 1] == q[|q| - 1]
  {
    p := [u] + q;
    forall i | 0 <= i < |p| - 1
      ensures Adjacent(g, p[i], p[i + 1], forward)
    {
      if i > 0 {
        assert p[i] == q[i - 1] && p[i + 1] == q[i];
      }
    }
  }

  /** The end of every path that starts in `s` is in the closure of `s`. */
  lemma {:induction false} PathInClosure(g: DiGraph, s: set<string>, p: seq<string>, forward: bool)
    requires WellFormed(g) && s <= NodeSet(g)
    requires IsPath(g, p, forward) && p[0] in s
    ensures p[|p| - 1] in Closure(g, s, forward)
  {
    var c := Closure(g, s, forward);
    var i := 0;
    while i < |p| - 1
      invariant 0 <= i < |p|
      invariant p[i] in c
    {
      StepIff(g, c, p[i + 1], forward);
      i := i + 1;
    }
  }

  /** Every node of the closure of `s` is the end of a path that starts in `s`. */
  lemma {:induction false} ClosureHasPath(g: DiGraph, s: set<string>, x: string, forward: bool)
    returns (p: seq<string>)
    requires WellFormed(g) && s <= NodeSet(g)
    requires x in Closure(g, s, forward)
    ensures IsPath(g, p, forward) && p[0] in s && p[|p| - 1] == x
    decreases |NodeSet(g) - s|
  {
    var next := Step(g, s, forward);
    StepWithin(g, s, forward);
    if next <= s {
      assert x in s;
      p := [x];
      assert p[|p| - 1] == x;
    } else {
      SmallerDifference(NodeSet(g), s, next);
      assert x in Closure(g, s + next, forward);
      var q := ClosureHasPath(g, s + next, x, forward);
      if q[0] in s {
        p := q;
        assert p[|p| - 1] == x;
      } else {
        StepIff(g, s, q[0], forward);
        var u :| u in s && Adjacent(g, u, q[0], forward);
        p := PathCons(g, u, q, forward);
        assert p[|p| - 1] == x;
      }
    }
  }

  /** `nx.descendants(G, n)`: the nodes reachable from `n`, other than `n`. */
  function Descendants(g: DiGraph, n: string): set<string>
    requires WellFormed(g) && n in g.nodes
  {
    Closure(g, {n}, true) - {n}
  }

  /** `nx.ancestors(G, n)`: the nodes from which `n` is reachable, other than `n`. */
  function Ancestors(g: DiGraph, n: string): set<string>
    requires WellFormed(g) && n in g.nodes
  {
    Closure(g, {n}, false) - {n}
  }

  /** A node other than `n` is a descendant of `n` exactly when a path leads to it from `n`. */
  lemma DescendantsIffPath(g: DiGraph, n: string, x: string)
    requires WellFormed(g) && n in g.nodes && x != n
    ensures x in Descendants(g, n) ==> exists p :: IsPath(g, p, true) && p[0] == n && p[|p| - 1] == x
    ensures forall p :: IsPath(g, p, true) && p[0] == n && p[|p| - 1] == x ==> x in Descendants(g, n)
  {
    if x in Descendants(g, n) {
      var p := ClosureHasPath(g, {n}, x, true);
    }
    forall p | IsPath(g, p, true) && p[0] == n && p[|p| - 1] == x
      ensures x in Descendants(g, n)
    {
      PathInClosure(g, {n}, p, true);
    }
  }

  // ---------------------------------------------------------------------------
  // Undirected balls (the two-way breadth-first search of `get_subgraph`)

  /** Predecessors and successors of `s`. */
  function Neighbours(g: DiGraph, s: set<string>): set<string> {
    Step(g, s, true) + Step(g, s, false)
  }

  lemma NeighboursUnion(g: DiGraph, a: set<string>, b: set<string>)
    ensures Neighbours(g, a + b) == Neighbours(g, a) + Neighbours(g, b)
  {
  }

  /** The nodes within `d` steps of `c`, following edges in either direction. */
  function Ball(g: DiGraph, c: string, d: nat): set<string> {
    if d == 0 then {c} else Ball(g, c, d - 1) + Neighbours(g, Ball(g, c, d - 1))
  }

  lemma {:induction false} BallContainsCentre(g: DiGraph, c: string, d: nat)
    ensures c in Ball(g, c, d)
  {
    if d > 0 {
      BallContainsCentre(g, c, d - 1);
    }
  }

  /** `w` is a walk that may take every edge in either direction. */
  predicate IsWalk(g: DiGraph, w: seq<string>) {
    |w| >= 1 && forall i | 0 <= i < |w| - 1 :: HasEdge(g, w[i], w[i + 1]) || HasEdge(g, w[i + 1], w[i])
  }

  /** The end of every walk of at most `d` steps from `c` is in `Ball(c, d)`. */
  lemma {:induction false} WalkInBall(g: DiGraph, c: string, w: seq<string>, d: nat)
    requires IsWalk(g, w) && w[0] == c && |w| - 1 <= d
    ensures w[|w| - 1] in Ball(g, c, d)
  {
    if d > 0 {
      if |w| == 1 {
        WalkInBall(g, c, w, d - 1);
      } else {
        var w' := w[..|w| - 1];
        WalkInBall(g, c, w', d - 1);
        var u := w'[|w'| - 1];
        var x := w[|w| - 1];
        if HasEdge(g, u, x) {
          StepIff(g, Ball(g, c, d - 1), x, true);
        } else {
          StepIff(g, Ball(g, c, d - 1), x, false);
        }
      }
    }
  }

  /** Every node of `Ball(c, d)` is the end of a walk of at most `d` steps from `c`. */
  lemma {:induction false} BallHasWalk(g: DiGraph, c: string, x: string, d: nat) returns (w: seq<string>)
    requires x in Ball(g, c, d)
    ensures IsWalk(g, w) && w[0] == c && w[|w| - 1] == x && |w| - 1 <= d
    decreases d
  {
    if d == 0 {
      w := [c];
    } else if x in Ball(g, c, d - 1) {
      w := BallHasWalk(g, c, x, d - 1);
    } else {
      var b := Ball(g, c, d - 1);
      var u;
      if x in Step(g, b, true) {
        StepIff(g, b, x, true);
        u :| u in b && HasEdge(g, u, x);
      } else {
        StepIff(g, b, x, false);
        u :| u in b && HasEdge(g, x, u);
      }
      var w' := BallHasWalk(g, c, u, d - 1);
      w := w' + [x];
      forall i | 0 <= i < |w| - 1
        ensures HasEdge(g, w[i], w[i + 1]) || HasEdge(g, w[i + 1], w[i])
      {
        if i < |w'| - 1 {
          assert w[i] == w'[i] && w[i + 1] == w'[i + 1];
        }
      }
    }
  }

  /** The nodes of `Ball(c, d)` are graph nodes when the centre is. */
  lemma {:induction false} BallWithin(g: DiGraph, c: string, d: nat)
    requires WellFormed(g) && c in g.nodes
    ensures Ball(g, c, d) <= NodeSet(g)
  {
    if d > 0 {
      BallWithin(g, c, d - 1);
      StepWithin(g, Ball(g, c, d - 1), true);
      StepWithin(g, Ball(g, c, d - 1), false);
    }
  }
}
