/**
 * The dependency-graph page of the dashboard
 * (`src/app/dashboard/graph/page.tsx`): the nodes passing the type and risk
 * filters, the edges between shown nodes, how each node and edge is drawn,
 * the type filter chips, and the connections listed for a selected node.
 * The layout engine and the drawing itself are outside the model.
 */
module GraphPage {
  import opened Wrappers
  import opened Collections
  import opened DashboardGraph

  /** Border colours by risk level (`riskColors`). */
  const RiskColors: map<string, string> :=
    map["critical" := "#ef4444", "high" := "#f97316", "medium" := "#eab308", "low" := "#22c55e"]

  /** Shapes by node type (`typeShapes`). */
  const TypeShapes: map<string, string> :=
    map["module" := "roundrectangle", "service" := "diamond", "function" := "ellipse", "class" := "hexagon",
        "api" := "rectangle", "db_table" := "barrel", "business_capability" := "star", "file" := "triangle"]

  /** Fill colours by node type (`typeColors`). */
  const TypeColors: map<string, string> :=
    map["module" := "#6366f1", "service" := "#8b5cf6", "function" := "#06b6d4", "class" := "#22c55e",
        "api" := "#f97316", "db_table" := "#eab308", "business_capability" := "#ec4899", "file" := "#64748b"]

  const DefaultColor := "#64748b"

  /** `table[key] || fallback`: a missing (or empty) entry falls back. */
  function Lookup(table: map<string, string>, key: string, fallback: string): (r: string)
    ensures key in table && table[key] != "" ==> r == table[key]
    ensures key !in table || table[key] == "" ==> r == fallback
  {
    if key in table && table[key] != "" then table[key] else fallback
  }

  // ---------------------------------------------------------------------------
  // Which nodes and edges are shown

  function TypeOk(filterType: string): GraphNode -> bool {
    (n: GraphNode) => filterType == "all" || n.nodeType == filterType
  }

  function RiskOk(filterRisk: string): GraphNode -> bool {
    (n: GraphNode) => filterRisk == "all" || n.risk == Some(filterRisk)
  }

  /** The type filter, then the risk filter. */
  function ShownNodes(nodes: seq<GraphNode>, filterType: string, filterRisk: string): seq<GraphNode> {
    Filter(Filter(nodes, TypeOk(filterType)), RiskOk(filterRisk))
  }

  /** Whether a node passes both filters; a node without a risk passes the risk filter only on "all". */
  predicate Visible(n: GraphNode, filterType: string, filterRisk: string) {
    (filterType == "all" || n.nodeType == filterType) && (filterRisk == "all" || (n.risk.Some? && n.risk.value == filterRisk))
  }

  /** A node is shown exactly when it is visible; with both filters on "all" every node is shown, in order. */
  lemma ShownNodesFacts(nodes: seq<GraphNode>, filterType: string, filterRisk: string)
    ensures forall n :: n in ShownNodes(nodes, filterType, filterRisk) <==> n in nodes && Visible(n, filterType, filterRisk)
    ensures filterType == "all" && filterRisk == "all" ==> ShownNodes(nodes, filterType, filterRisk) == nodes
  {
    if filterType == "all" && filterRisk == "all" {
      FilterAll(nodes, TypeOk(filterType));
      FilterAll(nodes, RiskOk(filterRisk));
    }
  }

  /** `validNodes`: the ids of the shown nodes. */
  function ShownIds(nodes: seq<GraphNode>, filterType: string, filterRisk: string): seq<string> {
    Project(ShownNodes(nodes, filterType, filterRisk), NodeId)
  }

  function BothEndsIn(ids: seq<string>): GraphEdge -> bool {
    (e: GraphEdge) => e.source in ids && e.target in ids
  }

  /** The edges drawn: those whose two ends are shown. */
  function ShownEdges(nodes: seq<GraphNode>, edges: seq<GraphEdge>, filterType: string, filterRisk: string): (r: seq<GraphEdge>)
    ensures |r| <= |edges|
    ensures forall e :: e in r <==>
      e in edges && e.source in ShownIds(nodes, filterType, filterRisk) && e.target in ShownIds(nodes, filterType, filterRisk)
  {
    Filter(edges, BothEndsIn(ShownIds(nodes, filterType, filterRisk)))
  }

  /** An id is shown exactly when a visible node carries it. */
  lemma ShownIdsFacts(nodes: seq<GraphNode>, filterType: string, filterRisk: string)
    ensures forall id :: id in ShownIds(nodes, filterType, filterRisk) <==>
      exists n :: n in nodes && Visible(n, filterType, filterRisk) && n.id == id
  {
    var shown := ShownNodes(nodes, filterType, filterRisk);
    ShownNodesFacts(nodes, filterType, filterRisk);
    ProjectIndex(shown, NodeId);
    forall id
      ensures id in Project(shown, NodeId) <==> exists n :: n in nodes && Visible(n, filterType, filterRisk) && n.id == id
    {
      if id in Project(shown, NodeId) {
        var i :| 0 <= i < |shown| && Project(shown, NodeId)[i] == id;
        assert shown[i] in shown;
      }
      if exists n :: n in nodes && Visible(n, filterType, filterRisk) && n.id == id {
        var n :| n in nodes && Visible(n, filterType, filterRisk) && n.id == id;
        var i :| 0 <= i < |shown| && shown[i] == n;
        assert Project(shown, NodeId)[i] == id;
      }
    }
  }

  /** The edges drawn are the subgraph induced by the visible nodes: an edge is drawn exactly when both its ends are visible nodes. */
  lemma InducedSubgraph(nodes: seq<GraphNode>, edges: seq<GraphEdge>, filterType: string, filterRisk: string)
    ensures forall e :: e in ShownEdges(nodes, edges, filterType, filterRisk) <==>
      && e in edges
      && (exists n :: n in nodes && Visible(n, filterType, filterRisk) && n.id == e.source)
      && (exists n :: n in nodes && Visible(n, filterType, filterRisk) && n.id == e.target)
  {
    ShownIdsFacts(nodes, filterType, filterRisk);
  }

  // ---------------------------------------------------------------------------
  // How the shown elements are drawn

  /** The drawing data of a node. */
  datatype NodeData = NodeData(id: string, caption: string, color: string, borderColor: string, size: nat, shape: string)

  /** The node's size: modules largest, then services, then the rest. */
  function NodeSize(nodeType: string): nat {
    if nodeType == "module" then 50 else if nodeType == "service" then 40 else 30
  }

  /** `n.risk || 'low'`. */
  function RiskKey(risk: Option<string>): string {
    if risk.Some? && risk.value != "" then risk.value else "low"
  }

  function NodeStyle(n: GraphNode): NodeData {
    NodeData(n.id, n.nodeLabel, Lookup(TypeColors, n.nodeType, DefaultColor),
      Lookup(RiskColors, RiskKey(n.risk), DefaultColor), NodeSize(n.nodeType),
      Lookup(TypeShapes, n.nodeType, "ellipse"))
  }

  /**
   * A node keeps its id and label; its size is 50, 40 or 30 as it is a
   * module, a service or anything else; a node without a risk level (or an
   * empty one) is bordered as low risk, and one with a level outside the
   * four in the fallback grey; a type outside the eight known is drawn as an
   * ellipse in the fallback grey.
   */
  lemma NodeStyleFacts(n: GraphNode)
    ensures NodeStyle(n).id == n.id && NodeStyle(n).caption == n.nodeLabel
    ensures NodeStyle(n).size == 50 <==> n.nodeType == "module"
    ensures NodeStyle(n).size == 40 <==> n.nodeType == "service"
    ensures 30 <= NodeStyle(n).size <= 50
    ensures (n.risk.None? || n.risk == Some("")) ==> NodeStyle(n).borderColor == RiskColors["low"]
    ensures n.risk.Some? && n.risk.value != "" && n.risk.value !in RiskColors ==> NodeStyle(n).borderColor == DefaultColor
    ensures n.nodeType !in TypeShapes ==> NodeStyle(n).shape == "ellipse" && NodeStyle(n).color == DefaultColor
    ensures n.nodeType in TypeShapes ==> NodeStyle(n).shape == TypeShapes[n.nodeType]
  {
  }

  /** The colour of an edge by its criticality. */
  function EdgeColor(criticality: Option<string>): (r: string)
    ensures criticality == Some("high") ==> r == "#ef4444"
    ensures criticality == Some("medium") ==> r == "#eab308"
    ensures criticality != Some("high") && criticality != Some("medium") ==> r == "#475569"
  {
    if criticality == Some("high") then "#ef4444"
    else if criticality == Some("medium") then "#eab308"
    else "#475569"
  }

  /** High-criticality edges are drawn in the critical-risk red and medium ones in the medium-risk yellow. */
  lemma EdgeColorsMatchRisk(criticality: Option<string>)
    ensures criticality == Some("high") ==> EdgeColor(criticality) == RiskColors["critical"]
    ensures criticality == Some("medium") ==> EdgeColor(criticality) == RiskColors["medium"]
    ensures EdgeColor(criticality) !in {RiskColors["high"], RiskColors["low"]}
  {
  }

  // ---------------------------------------------------------------------------
  // Chips and the connections panel

  function TypeOf(n: GraphNode): string {
    n.nodeType
  }

  /** The type chips: "all", then each node type once. */
  function TypeChips(nodes: seq<GraphNode>): seq<string> {
    ["all"] + Distinct(Project(nodes, TypeOf))
  }

  /** After "all", each type of some node appears exactly once, in the order in which types first occur. */
  lemma TypeChipsFacts(nodes: seq<GraphNode>)
    ensures TypeChips(nodes)[0] == "all"
    ensures forall t :: t in TypeChips(nodes)[1..] <==> exists i | 0 <= i < |nodes| :: nodes[i].nodeType == t
    ensures NoDuplicates(TypeChips(nodes)[1..])
    ensures forall i, j | 1 <= i < j < |TypeChips(nodes)| ::
      FirstIndex(Project(nodes, TypeOf), TypeChips(nodes)[i]) < FirstIndex(Project(nodes, TypeOf), TypeChips(nodes)[j])
  {
    assert TypeChips(nodes)[1..] == Distinct(Project(nodes, TypeOf));
    DistinctKeysFacts(nodes, TypeOf);
  }

  function Incident(id: string): GraphEdge -> bool {
    (e: GraphEdge) => e.source == id || e.target == id
  }

  /** The connections panel of a selected node: its first eight edges, in edge order. */
  function Connections(edges: seq<GraphEdge>, id: string): (r: seq<GraphEdge>)
    ensures |r| <= 8
    ensures forall e | e in r :: e in edges && (e.source == id || e.target == id)
    ensures |r| < 8 ==> forall e | e in edges && (e.source == id || e.target == id) :: e in r
    ensures |r| <= |Filter(edges, Incident(id))| && r == Filter(edges, Incident(id))[..|r|]
  {
    var all := Filter(edges, Incident(id));
    var r := Take(all, 8);
    assert forall e | e in r :: e in all;
    r
  }
}
