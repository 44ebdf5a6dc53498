/**
 * The dependency-graph builder (`engine/services/graph_builder.py`): function
 * and class elements become nodes; calls, base classes and imports become
 * edges; the export lists every node with its degrees and the number of
 * nodes downstream of it; `get_subgraph` collects the neighbourhood of a node
 * by a depth-limited breadth-first search in both directions.
 */
module GraphBuilder {
  import opened Wrappers
  import opened Strings
  import opened Collections
  import opened Graphs
  import opened AstParser

  predicate IsElement(n: ParsedNode) {
    n.kind == "function" || n.kind == "class"
  }

  /** The attributes `add_node` receives, with the source's defaults for missing keys. */
  function ElementAttrs(n: ParsedNode): (a: NodeAttrs)
    ensures a.labelText == n.labelText && a.kind == n.kind && a.file == n.file && a.language == n.language
    ensures a.lineStart == n.lineStart.GetOr(0) && a.complexity == n.complexity.GetOr(0)
  {
    NodeAttrs(n.labelText, n.kind, n.file, n.language, n.lineStart.GetOr(0), n.complexity.GetOr(0))
  }

  // ---------------------------------------------------------------------------
  // Label indexes (`node_labels` and `class_labels`)

  /** The key an element is indexed under: for functions the label with every "()" removed. */
  function KeyOf(n: ParsedNode, strip: bool): string {
    if strip then ReplaceAll(n.labelText, "()", "") else n.labelText
  }

  predicate Labelled(n: ParsedNode, kind: string, strip: bool, k: string) {
    n.kind == kind && KeyOf(n, strip) == k
  }

  /** `{key(n): n["id"] for n in nodes if n["type"] == kind}`: a later node overwrites an earlier one. */
  function LabelIndex(ns: seq<ParsedNode>, kind: string, strip: bool): map<string, string> {
    if ns == [] then map[]
    else
      var m := LabelIndex(ns[..|ns| - 1], kind, strip);
      var n := ns[|ns| - 1];
      if n.kind == kind then m[KeyOf(n, strip) := n.id] else m
  }

  /** Position `i` holds the last node of the kind with key `k`. */
  predicate LastLabelled(ns: seq<ParsedNode>, kind: string, strip: bool, k: string, i: int) {
    0 <= i < |ns| && Labelled(ns[i], kind, strip, k) && forall j | i < j < |ns| :: !Labelled(ns[j], kind, strip, k)
  }

  lemma {:induction false} LabelIndexHas(ns: seq<ParsedNode>, kind: string, strip: bool, k: string)
    ensures k in LabelIndex(ns, kind, strip) <==> exists i | 0 <= i < |ns| :: Labelled(ns[i], kind, strip, k)
  {
    if ns != [] {
      var init := ns[..|ns| - 1];
      LabelIndexHas(init, kind, strip, k);
      assert forall i | 0 <= i < |init| :: init[i] == ns[i];
      if Labelled(ns[|ns| - 1], kind, strip, k) {
        assert k in LabelIndex(ns, kind, strip);
      }
    }
  }

  lemma {:induction false} LabelIndexValue(ns: seq<ParsedNode>, kind: string, strip: bool, k: string) returns (i: nat)
    requires k in LabelIndex(ns, kind, strip)
    ensures LastLabelled(ns, kind, strip, k, i) && LabelIndex(ns, kind, strip)[k] == ns[i].id
  {
    var init := ns[..|ns| - 1];
    var n := ns[|ns| - 1];
    if Labelled(n, kind, strip, k) {
      i := |ns| - 1;
    } else {
      assert k in LabelIndex(init, kind, strip) && LabelIndex(ns, kind, strip)[k] == LabelIndex(init, kind, strip)[k];
      i := LabelIndexValue(init, kind, strip, k);
      assert init[i] == ns[i];
      assert forall j | i < j < |init| :: init[j] == ns[j];
    }
  }

  /** A key is indexed iff some node of the kind has it, and it maps to the id of the last such node. */
  lemma LabelIndexLast(ns: seq<ParsedNode>, kind: string, strip: bool, k: string)
    ensures k in LabelIndex(ns, kind, strip) <==> exists i | 0 <= i < |ns| :: Labelled(ns[i], kind, strip, k)
    ensures k in LabelIndex(ns, kind, strip) ==>
      exists i | 0 <= i < |ns| :: Labelled(ns[i], kind, strip, k) && LabelIndex(ns, kind, strip)[k] == ns[i].id
                                  && forall j | i < j < |ns| :: !Labelled(ns[j], kind, strip, k)
  {
    LabelIndexHas(ns, kind, strip, k);
    if k in LabelIndex(ns, kind, strip) {
      var i := LabelIndexValue(ns, kind, strip, k);
    }
  }

  // ---------------------------------------------------------------------------
  // The three passes of `build_graph`, as folds over the parsed nodes

  /** The first pass: every function or class becomes a node with its attributes. */
  function AddElements(g: DiGraph, ns: seq<ParsedNode>): (r: DiGraph)
    requires WellFormed(g)
    ensures WellFormed(r) && r.edges == g.edges
    ensures forall x :: x in r.attrs <==> x in g.attrs || exists i | 0 <= i < |ns| :: IsElement(ns[i]) && ns[i].id == x
    ensures forall x :: x in NodeSet(r) <==> x in NodeSet(g) || exists i | 0 <= i < |ns| :: IsElement(ns[i]) && ns[i].id == x
  {
    if ns == [] then g
    else
      var prev := AddElements(g, ns[..|ns| - 1]);
      var n := ns[|ns| - 1];
      assert forall i | 0 <= i < |ns| - 1 :: ns[..|ns| - 1][i] == ns[i];
      if IsElement(n) then AddNode(prev, n.id, ElementAttrs(n)) else prev
  }

  /** Adds an edge from `src` to `labels[k]` for every listed `k` that the index knows. */
  function LinkAll(g: DiGraph, src: string, keys: seq<string>, labels: map<string, string>, a: EdgeAttrs): (r: DiGraph)
    requires WellFormed(g)
    ensures WellFormed(r) && r.attrs == g.attrs
    ensures forall x, y :: HasEdge(r, x, y) <==>
      HasEdge(g, x, y) || (x == src && exists k | k in keys && k in labels :: labels[k] == y)
  {
    if keys == [] then g
    else
      var prev := LinkAll(g, src, keys[..|keys| - 1], labels, a);
      var k := keys[|keys| - 1];
      assert keys == keys[..|keys| - 1] + [k];
      if k in labels then AddEdge(prev, src, labels[k], a) else prev
  }

  /** The edges one parsed node contributes in the second pass: calls for a function, bases for a class. */
  predicate RelationEdge(n: ParsedNode, fl: map<string, string>, cl: map<string, string>, x: string, y: string) {
    x == n.id
    && ((n.kind == "function" && n.calls.Some? && exists c | c in n.calls.value && c in fl :: fl[c] == y)
        || (n.kind == "class" && n.bases.Some? && exists b | b in n.bases.value && b in cl :: cl[b] == y))
  }

  function RelateOne(g: DiGraph, n: ParsedNode, fl: map<string, string>, cl: map<string, string>): (r: DiGraph)
    requires WellFormed(g)
    ensures WellFormed(r) && r.attrs == g.attrs
    ensures forall x, y :: HasEdge(r, x, y) <==> HasEdge(g, x, y) || RelationEdge(n, fl, cl, x, y)
  {
    var g1 := if n.kind == "function" && n.calls.Some? then LinkAll(g, n.id, n.calls.value, fl, EdgeAttrs("calls", 1)) else g;
    if n.kind == "class" && n.bases.Some? then LinkAll(g1, n.id, n.bases.value, cl, EdgeAttrs("extends", 2)) else g1
  }

  /** The second pass: call edges (weight 1) and inheritance edges (weight 2). */
  function RelationEdges(g: DiGraph, ns: seq<ParsedNode>, fl: map<string, string>, cl: map<string, string>): (r: DiGraph)
    requires WellFormed(g)
    ensures WellFormed(r) && r.attrs == g.attrs
    ensures forall x, y :: HasEdge(r, x, y) <==>
      HasEdge(g, x, y) || exists i | 0 <= i < |ns| :: RelationEdge(ns[i], fl, cl, x, y)
  {
    if ns == [] then g
    else
      assert forall i | 0 <= i < |ns| - 1 :: ns[..|ns| - 1][i] == ns[i];
      RelateOne(RelationEdges(g, ns[..|ns| - 1], fl, cl), ns[|ns| - 1], fl, cl)
  }

  /** The synthetic node an import edge starts from. */
  function ModuleNode(file: string): string {
    file + ":module"
  }

  /** An import node `imp` links its file's module node to element `o` when `o`'s path contains the import label. */
  predicate ImportTarget(imp: ParsedNode, o: ParsedNode) {
    IsElement(o) && Contains(o.file, imp.labelText)
  }

  /** Some element of `others` is a target of `imp` and has id `y`. */
  predicate ImportedBy(imp: ParsedNode, others: seq<ParsedNode>, y: string) {
    exists j | 0 <= j < |others| :: ImportTarget(imp, others[j]) && others[j].id == y
  }

  lemma ImportedBySnoc(imp: ParsedNode, others: seq<ParsedNode>)
    requires others != []
    ensures forall y :: ImportedBy(imp, others, y) <==>
      ImportedBy(imp, others[..|others| - 1], y) || (ImportTarget(imp, others[|others| - 1]) && others[|others| - 1].id == y)
  {
    assert forall j | 0 <= j < |others| - 1 :: others[..|others| - 1][j] == others[j];
  }

  function ModuleEdges(g: DiGraph, imp: ParsedNode, others: seq<ParsedNode>): (r: DiGraph)
    requires WellFormed(g)
    ensures WellFormed(r) && r.attrs == g.attrs
    ensures forall x, y :: HasEdge(r, x, y) <==> HasEdge(g, x, y) || (x == ModuleNode(imp.file) && ImportedBy(imp, others, y))
  {
    if others == [] then g
    else
      var prev := ModuleEdges(g, imp, others[..|others| - 1]);
      var o := others[|others| - 1];
      ImportedBySnoc(imp, others);
      if ImportTarget(imp, o) then AddEdge(prev, ModuleNode(imp.file), o.id, EdgeAttrs("depends_on", 1)) else prev
  }

  /** One element more: an edge to it is added exactly when it is a target of the import. */
  lemma ModuleEdgesStep(g: DiGraph, imp: ParsedNode, others: seq<ParsedNode>, j: nat)
    requires WellFormed(g) && j < |others|
    ensures var prev := ModuleEdges(g, imp, others[..j]);
      ModuleEdges(g, imp, others[..j + 1]) ==
        if ImportTarget(imp, others[j]) then AddEdge(prev, ModuleNode(imp.file), others[j].id, EdgeAttrs("depends_on", 1))
        else prev
  {
    assert others[..j + 1][..j] == others[..j];
  }

  predicate ImportEdge(imp: ParsedNode, all: seq<ParsedNode>, x: string, y: string) {
    imp.kind == "import" && x == ModuleNode(imp.file) && ImportedBy(imp, all, y)
  }

  /** The third pass: `depends_on` edges (weight 1) from module nodes. */
  function ImportEdges(g: DiGraph, ns: seq<ParsedNode>, all: seq<ParsedNode>): (r: DiGraph)
    requires WellFormed(g)
    ensures WellFormed(r) && r.attrs == g.attrs
    ensures forall x, y :: HasEdge(r, x, y) <==>
      HasEdge(g, x, y) || exists i | 0 <= i < |ns| :: ImportEdge(ns[i], all, x, y)
  {
    if ns == [] then g
    else
      var prev := ImportEdges(g, ns[..|ns| - 1], all);
      var n := ns[|ns| - 1];
      assert forall i | 0 <= i < |ns| - 1 :: ns[..|ns| - 1][i] == ns[i];
      if n.kind == "import" then ModuleEdges(prev, n, all) else prev
  }

  function FunctionIndex(parsed: seq<ParsedNode>): map<string, string> {
    LabelIndex(parsed, "function", true)
  }

  function ClassIndex(parsed: seq<ParsedNode>): map<string, string> {
    LabelIndex(parsed, "class", false)
  }

  /** The graph `build_graph` leaves behind; it does not depend on any earlier graph. */
  function BuiltGraph(parsed: seq<ParsedNode>): (g: DiGraph)
    ensures WellFormed(g)
  {
    var g1 := AddElements(Empty(), parsed);
    var g2 := RelationEdges(g1, parsed, FunctionIndex(parsed), ClassIndex(parsed));
    ImportEdges(g2, parsed, parsed)
  }

  /**
   * The edges of the built graph are exactly those the three rules give:
   * calls and bases resolved through the label indexes, and imports.
   */
  lemma BuiltEdges(parsed: seq<ParsedNode>, x: string, y: string)
    ensures HasEdge(BuiltGraph(parsed), x, y) <==>
      (exists i | 0 <= i < |parsed| :: RelationEdge(parsed[i], FunctionIndex(parsed), ClassIndex(parsed), x, y))
      || (exists i | 0 <= i < |parsed| :: ImportEdge(parsed[i], parsed, x, y))
  {
    var g1 := AddElements(Empty(), parsed);
    assert !HasEdge(g1, x, y);
  }

  /** Attributes are given only to function and class elements. */
  lemma BuiltAttributes(parsed: seq<ParsedNode>, x: string)
    ensures x in BuiltGraph(parsed).attrs <==> exists i | 0 <= i < |parsed| :: IsElement(parsed[i]) && parsed[i].id == x
  {
  }

  /**
   * A function that calls `c` gets a "calls" edge to the last function whose
   * label, with "()" removed, is `c`.
   */
  lemma CallEdgeToLastFunction(parsed: seq<ParsedNode>, i: nat, c: string, j: nat)
    requires i < |parsed| && j < |parsed|
    requires parsed[i].kind == "function" && parsed[i].calls.Some? && c in parsed[i].calls.value
    requires Labelled(parsed[j], "function", true, c)
    requires forall k | j < k < |parsed| :: !Labelled(parsed[k], "function", true, c)
    ensures HasEdge(BuiltGraph(parsed), parsed[i].id, parsed[j].id)
  {
    LabelIndexLast(parsed, "function", true, c);
    var fl := FunctionIndex(parsed);
    var k :| 0 <= k < |parsed| && Labelled(parsed[k], "function", true, c) && fl[c] == parsed[k].id
             && forall m | k < m < |parsed| :: !Labelled(parsed[m], "function", true, c);
    assert k == j;
    assert RelationEdge(parsed[i], fl, ClassIndex(parsed), parsed[i].id, parsed[j].id);
    BuiltEdges(parsed, parsed[i].id, parsed[j].id);
  }

  /**
   * A class whose bases name `b` gets an "extends" edge to the last class
   * labelled `b`.
   */
  lemma ExtendsEdgeToLastClass(parsed: seq<ParsedNode>, i: nat, b: string, j: nat)
    requires i < |parsed| && j < |parsed|
    requires parsed[i].kind == "class" && parsed[i].bases.Some? && b in parsed[i].bases.value
    requires Labelled(parsed[j], "class", false, b)
    requires forall k | j < k < |parsed| :: !Labelled(parsed[k], "class", false, b)
    ensures HasEdge(BuiltGraph(parsed), parsed[i].id, parsed[j].id)
  {
    LabelIndexLast(parsed, "class", false, b);
    var cl := ClassIndex(parsed);
    var k :| 0 <= k < |parsed| && Labelled(parsed[k], "class", false, b) && cl[b] == parsed[k].id
             && forall m | k < m < |parsed| :: !Labelled(parsed[m], "class", false, b);
    assert k == j;
    assert RelationEdge(parsed[i], FunctionIndex(parsed), cl, parsed[i].id, parsed[j].id);
    BuiltEdges(parsed, parsed[i].id, parsed[j].id);
  }

  // ---------------------------------------------------------------------------
  // Export

  /** A node as `export_graph` lists it: its id and attributes, with its degrees and downstream count. */
  datatype ExportedNode = ExportedNode(
    id: string, attrs: Option<NodeAttrs>, inDegree: nat, outDegree: nat, downstreamCount: nat)

  /** The exported graph; density and the number of components are not part of this model. */
  datatype GraphExport = GraphExport(nodes: seq<ExportedNode>, edges: seq<Edge>, totalNodes: nat, totalEdges: nat)

  function ExportNode(g: DiGraph, n: string): ExportedNode
    requires WellFormed(g) && n in g.nodes
  {
    ExportedNode(n, if n in g.attrs then Some(g.attrs[n]) else None, InDegree(g, n), OutDegree(g, n), |Descendants(g, n)|)
  }

  function ExportNodes(g: DiGraph, ns: seq<string>): (r: seq<ExportedNode>)
    requires WellFormed(g) && forall n | n in ns :: n in g.nodes
    ensures |r| == |ns|
    ensures forall i | 0 <= i < |ns| :: r[i] == ExportNode(g, ns[i])
  {
    seq(|ns|, i requires 0 <= i < |ns| => ExportNode(g, ns[i]))
  }

  /** `export_graph`: one entry per node, and totals that count the graph's nodes and edges. */
  function ExportOf(g: DiGraph): (r: GraphExport)
    requires WellFormed(g)
    ensures |r.nodes| == r.totalNodes == |g.nodes|
    ensures r.totalEdges == |g.edges|
  {
    ExportedEdges(g);
    var nodes := ExportNodes(g, g.nodes);
    var edges := EdgesBySource(g, g.nodes);
    GraphExport(nodes, edges, |nodes|, |edges|)
  }

  /** The per-node loop of `export_graph`, over the node ids `ns`. */
  method ExportEach(g: DiGraph, ns: seq<string>) returns (nodes: seq<ExportedNode>)
    requires WellFormed(g) && forall n | n in ns :: n in g.nodes
    ensures nodes == ExportNodes(g, ns)
  {
    nodes := [];
    var i := 0;
    while i < |ns|
      invariant 0 <= i <= |ns| && |nodes| == i
      invariant forall k | 0 <= k < i :: nodes[k] == ExportNode(g, ns[k])
    {
      nodes := nodes + [ExportNode(g, ns[i])];
      i := i + 1;
    }
  }

  /**
   * The export lists every node once and every edge once; each node's
   * downstream count is the number of other nodes a path leads to from it.
   */
  lemma ExportFacts(g: DiGraph)
    requires WellFormed(g)
    ensures ExportOf(g).totalNodes == |g.nodes| == |NodeSet(g)|
    ensures ExportOf(g).totalEdges == |g.edges|
    ensures forall e :: e in ExportOf(g).edges <==> e in g.edges
    ensures forall i | 0 <= i < |g.nodes| ::
      ExportOf(g).nodes[i].id == g.nodes[i]
      && ExportOf(g).nodes[i].downstreamCount == |Closure(g, {g.nodes[i]}, true) - {g.nodes[i]}|
  {
    var ex := ExportOf(g);
    assert ex.nodes == ExportNodes(g, g.nodes) && ex.edges == EdgesBySource(g, g.nodes);
    ExportedEdges(g);
    DistinctCard(g.nodes);
    forall i | 0 <= i < |g.nodes|
      ensures ex.nodes[i].id == g.nodes[i] && ex.nodes[i].downstreamCount == |Closure(g, {g.nodes[i]}, true) - {g.nodes[i]}|
    {
      assert ex.nodes[i] == ExportNode(g, g.nodes[i]);
    }
  }

  // ---------------------------------------------------------------------------
  // Subgraphs

  /** A node of a subgraph: its id and its attributes (none for a node created only as an edge endpoint). */
  datatype SubNode = SubNode(id: string, attrs: Option<NodeAttrs>)

  datatype Subgraph = Subgraph(nodes: seq<SubNode>, edges: seq<Edge>)

  /**
   * The subgraph induced by `v`: exactly the graph's nodes in `v` and the
   * edges with both ends in `v`. The order here is the graph's; NetworkX's
   * subgraph view iterates the node set `v` itself when it is small against
   * the graph, so only membership is promised, not order.
   */
  function Induced(g: DiGraph, v: set<string>): (r: Subgraph)
    requires WellFormed(g)
    ensures forall x :: (exists k | 0 <= k < |r.nodes| :: r.nodes[k].id == x) <==> x in g.nodes && x in v
    ensures forall e :: e in r.edges <==> e in g.edges && e.source in v && e.target in v
  {
    var ids := Filter(g.nodes, (x: string) => x in v);
    assert forall x :: x in ids <==> x in g.nodes && x in v;
    var all := EdgesBySource(g, g.nodes);
    EdgesBySourceMembers(g, g.nodes);
    assert forall e :: e in all <==> e in g.edges;
    var es := Filter(all, (e: Edge) => e.source in v && e.target in v);
    assert forall e :: e in es <==> e in all && e.source in v && e.target in v;
    Subgraph(SubNodes(g, ids), es)
  }

  /** The subgraph nodes for `ids`, each with its attributes when it has any. */
  function SubNodes(g: DiGraph, ids: seq<string>): (nodes: seq<SubNode>)
    ensures forall x :: (exists k | 0 <= k < |nodes| :: nodes[k].id == x) <==> x in ids
  {
    var nodes := seq(|ids|, k requires 0 <= k < |ids| => SubNode(ids[k], if ids[k] in g.attrs then Some(g.attrs[ids[k]]) else None));
    assert forall x :: (exists k | 0 <= k < |nodes| :: nodes[k].id == x) <==> x in ids by {
      forall x
        ensures (exists k | 0 <= k < |nodes| :: nodes[k].id == x) <==> x in ids
      {
        if x in ids {
          var k :| 0 <= k < |ids| && ids[k] == x;
          assert nodes[k].id == x;
        }
      }
    }
    nodes
  }

  function Max0(d: int): nat {
    if d < 0 then 0 else d
  }

  // ---------------------------------------------------------------------------
  // The builder

  class CodeGraphBuilder {
    var graph: DiGraph
    var currentGraph: Option<DiGraph>

    ghost predicate Valid()
      reads this
    {
      WellFormed(graph)
    }

    constructor()
      ensures Valid() && graph == Empty() && currentGraph == None
    {
      graph := Empty();
      currentGraph := None;
    }

    /** `build_graph`: rebuilds the graph from scratch, remembers it and exports it. */
    method BuildGraph(parsed: seq<ParsedNode>) returns (exported: GraphExport)
      modifies this
      ensures Valid()
      ensures graph == BuiltGraph(parsed) && currentGraph == Some(graph)
      ensures exported == ExportOf(graph)
    {
      graph := Empty();
      AddElementNodes(parsed);
      AddRelationEdges(parsed);
      AddImportEdges(parsed);
      currentGraph := Some(graph);
      exported := ExportGraph();
    }

    /** The first pass of `build_graph`. */
    method AddElementNodes(parsed: seq<ParsedNode>)
      requires Valid()
      modifies this
      ensures Valid() && graph == AddElements(old(graph), parsed) && currentGraph == old(currentGraph)
    {
      ghost var g0 := graph;
      var i := 0;
      while i < |parsed|
        invariant 0 <= i <= |parsed|
        invariant graph == AddElements(g0, parsed[..i]) && currentGraph == old(currentGraph)
      {
        assert parsed[..i + 1][..i] == parsed[..i];
        var node := parsed[i];
        if node.kind == "function" || node.kind == "class" {
          graph := AddNode(graph, node.id, ElementAttrs(node));
        }
        i := i + 1;
      }
      assert parsed[..i] == parsed;
    }

    /** The second pass of `build_graph`. */
    method AddRelationEdges(parsed: seq<ParsedNode>)
      requires Valid()
      modifies this
      ensures Valid() && currentGraph == old(currentGraph)
      ensures graph == RelationEdges(old(graph), parsed, FunctionIndex(parsed), ClassIndex(parsed))
    {
      ghost var g0 := graph;
      var nodeLabels := FunctionIndex(parsed);
      var i := 0;
      while i < |parsed|
        invariant 0 <= i <= |parsed| && currentGraph == old(currentGraph)
        invariant graph == RelationEdges(g0, parsed[..i], nodeLabels, ClassIndex(parsed))
      {
        assert parsed[..i + 1][..i] == parsed[..i];
        var node := parsed[i];
        if node.kind == "function" && node.calls.Some? {
          LinkEach(node.id, node.calls.value, nodeLabels, EdgeAttrs("calls", 1));
        }
        if node.kind == "class" && node.bases.Some? {
          // The class index is rebuilt for every base, as the source does.
          LinkEach(node.id, node.bases.value, ClassIndex(parsed), EdgeAttrs("extends", 2));
        }
        i := i + 1;
      }
      assert parsed[..i] == parsed;
    }

    /** One inner loop of the second pass: an edge to every listed key the index knows. */
    method LinkEach(src: string, keys: seq<string>, labels: map<string, string>, a: EdgeAttrs)
      requires Valid()
      modifies this
      ensures Valid() && currentGraph == old(currentGraph)
      ensures graph == LinkAll(old(graph), src, keys, labels, a)
    {
      ghost var g0 := graph;
      var j := 0;
      while j < |keys|
        invariant 0 <= j <= |keys| && currentGraph == old(currentGraph)
        invariant graph == LinkAll(g0, src, keys[..j], labels, a)
      {
        assert keys[..j + 1][..j] == keys[..j];
        if keys[j] in labels {
          graph := AddEdge(graph, src, labels[keys[j]], a);
        }
        j := j + 1;
      }
      assert keys[..j] == keys;
    }

    /** The third pass of `build_graph`. */
    method AddImportEdges(parsed: seq<ParsedNode>)
      requires Valid()
      modifies this
      ensures Valid() && currentGraph == old(currentGraph)
      ensures graph == ImportEdges(old(graph), parsed, parsed)
    {
      ghost var g0 := graph;
      var i := 0;
      while i < |parsed|
        invariant 0 <= i <= |parsed| && currentGraph == old(currentGraph)
        invariant graph == ImportEdges(g0, parsed[..i], parsed)
      {
        assert parsed[..i + 1][..i] == parsed[..i];
        var node := parsed[i];
        if node.kind == "import" {
          LinkModule(node, parsed);
        }
        i := i + 1;
      }
      assert parsed[..i] == parsed;
    }

    /** The inner loop of the third pass, for one import node. */
    method LinkModule(node: ParsedNode, parsed: seq<ParsedNode>)
      requires Valid()
      modifies this
      ensures Valid() && currentGraph == old(currentGraph)
      ensures graph == ModuleEdges(old(graph), node, parsed)
    {
      var g0 := graph;
      var g := g0;
      var sourceFile := node.file;
      var j := 0;
      while j < |parsed|
        invariant 0 <= j <= |parsed| && graph == g0 && currentGraph == old(currentGraph)
        invariant g == ModuleEdges(g0, node, parsed[..j])
      {
        ModuleEdgesStep(g0, node, parsed, j);
        var other := parsed[j];
        if other.kind == "function" || other.kind == "class" {
          if Contains(other.file, node.labelText) {
            g := AddEdge(g, sourceFile + ":module", other.id, EdgeAttrs("depends_on", 1));
          }
        }
        j := j + 1;
      }
      assert parsed[..j] == parsed;
      graph := g;
    }

    /** `export_graph`: every node with its degrees and downstream count, then the edges source by source. */
    method ExportGraph() returns (exported: GraphExport)
      requires Valid()
      ensures exported == ExportOf(graph)
    {
      var nodes := ExportAllNodes();
      var edges := ExportAllEdges();
      exported := GraphExport(nodes, edges, |nodes|, |edges|);
    }

    method ExportAllNodes() returns (nodes: seq<ExportedNode>)
      requires Valid()
      ensures nodes == ExportNodes(graph, graph.nodes)
    {
      nodes := ExportEach(graph, graph.nodes);
    }

    method ExportAllEdges() returns (edges: seq<Edge>)
      requires Valid()
      ensures edges == EdgesBySource(graph, graph.nodes)
    {
      edges := [];
      var i := 0;
      while i < |graph.nodes|
        invariant 0 <= i <= |graph.nodes|
        invariant edges == EdgesBySource(graph, graph.nodes[..i])
      {
        assert graph.nodes[..i + 1][..i] == graph.nodes[..i];
        edges := edges + KeyFilter(graph.edges, SourceOf, graph.nodes[i]);
        i := i + 1;
      }
      assert graph.nodes[..i] == graph.nodes;
    }

    /**
     * `get_subgraph`: the nodes within `depth` steps of `nodeId` along edges
     * in either direction, with the edges among them; nothing for an unknown
     * node.
     */
    method GetSubgraph(nodeId: string, depth: int) returns (sub: Subgraph)
      requires Valid()
      ensures nodeId !in graph.nodes ==> sub == Subgraph([], [])
      ensures nodeId in graph.nodes ==> sub == Induced(graph, Ball(graph, nodeId, Max0(depth)))
    {
      if nodeId !in graph.nodes {
        return Subgraph([], []);
      }
      var visited: set<string> := {nodeId};
      var frontier: set<string> := {nodeId};
      var level := 0;
      while level < depth
        invariant 0 <= level <= Max0(depth)
        invariant visited == Ball(graph, nodeId, level)
        invariant frontier <= visited
        invariant Neighbours(graph, visited - frontier) <= visited
      {
        ghost var v0 := visited;
        var nextFrontier;
        visited, nextFrontier := ExpandLevel(frontier, visited);
        BallLevel(graph, nodeId, level, v0, frontier);
        frontier := nextFrontier;
        level := level + 1;
      }
      assert level == Max0(depth);
      sub := Induced(graph, visited);
    }

    /** One round of the outer loop of `get_subgraph`: expand every frontier node. */
    method ExpandLevel(frontier: set<string>, visited: set<string>)
      returns (visited': set<string>, nextFrontier: set<string>)
      requires Valid()
      ensures visited' == visited + Neighbours(graph, frontier)
      ensures nextFrontier == visited' - visited
    {
      visited', nextFrontier := visited, {};
      var todo := frontier;
      while todo != {}
        invariant todo <= frontier
        invariant visited' == visited + Neighbours(graph, frontier - todo)
        invariant nextFrontier == visited' - visited
        decreases |todo|
      {
        var n :| n in todo;
        ghost var v0 := visited';
        visited', nextFrontier := Expand(n, visited', nextFrontier);
        ExpandedOne(graph, frontier, todo, n, visited, v0, visited');
        todo := todo - {n};
      }
      assert frontier - todo == frontier;
    }

    /** The body of the inner loop of `get_subgraph`: visit the predecessors, then the successors, of `n`. */
    method Expand(n: string, visited: set<string>, nextFrontier: set<string>)
      returns (visited': set<string>, nextFrontier': set<string>)
      requires Valid()
      ensures visited' == visited + Neighbours(graph, {n})
      ensures nextFrontier' == nextFrontier + (visited' - visited)
    {
      var preds := Predecessors(graph, n);
      var v1, f1 := VisitAll(preds, visited, nextFrontier);
      var succs := Successors(graph, n);
      visited', nextFrontier' := VisitAll(succs, v1, f1);
    }
  }

  /** Expanding one more frontier node `n` keeps the visited set equal to the neighbours of the nodes expanded so far. */
  lemma ExpandedOne(g: DiGraph, frontier: set<string>, todo: set<string>, n: string,
                    visited: set<string>, v0: set<string>, v1: set<string>)
    requires n in todo && todo <= frontier
    requires v0 == visited + Neighbours(g, frontier - todo)
    requires v1 == v0 + Neighbours(g, {n})
    ensures v1 == visited + Neighbours(g, frontier - (todo - {n}))
  {
    NeighboursUnion(g, frontier - todo, {n});
    assert frontier - (todo - {n}) == (frontier - todo) + {n};
  }

  /**
   * One round of the search moves from the ball of radius `d` to the ball of
   * radius `d + 1`, provided every node found before the last round has had
   * its neighbours visited.
   */
  lemma BallLevel(g: DiGraph, c: string, d: nat, visited: set<string>, frontier: set<string>)
    requires visited == Ball(g, c, d) && frontier <= visited
    requires Neighbours(g, visited - frontier) <= visited
    ensures var v' := visited + Neighbours(g, frontier);
      v' == Ball(g, c, d + 1) && v' - visited <= v' && Neighbours(g, v' - (v' - visited)) <= v'
  {
    var v' := visited + Neighbours(g, frontier);
    assert v' - (v' - visited) == visited;
    NeighboursUnion(g, visited - frontier, frontier);
    assert visited == (visited - frontier) + frontier;
  }

  /** Marks every listed node visited, adding those not seen before to the next frontier. */
  method VisitAll(xs: seq<string>, visited: set<string>, nextFrontier: set<string>)
    returns (visited': set<string>, nextFrontier': set<string>)
    ensures visited' == visited + (set x | x in xs)
    ensures nextFrontier' == nextFrontier + (visited' - visited)
  {
    visited', nextFrontier' := visited, nextFrontier;
    var j := 0;
    while j < |xs|
      invariant 0 <= j <= |xs|
      invariant visited' == visited + (set x | x in xs[..j])
      invariant nextFrontier' == nextFrontier + (visited' - visited)
    {
      assert xs[..j + 1] == xs[..j] + [xs[j]];
      if xs[j] !in visited' {
        visited' := visited' + {xs[j]};
        nextFrontier' := nextFrontier' + {xs[j]};
      }
      j := j + 1;
    }
    assert xs[..j] == xs;
  }
}
