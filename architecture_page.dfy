/**
 * The architecture page of the dashboard
 * (`src/app/dashboard/architecture/page.tsx`): the module nodes, the
 * dependencies between modules with each module's incoming and outgoing
 * counts, and the business-logic layer's component names.
 */
module ArchitecturePage {
  import opened Wrappers
  import opened Strings
  import opened Collections
  import opened DashboardGraph

  function TypeOf(n: GraphNode): string {
    n.nodeType
  }

  /** `modules`: the nodes of type "module", in order. */
  function Modules(nodes: seq<GraphNode>): seq<GraphNode> {
    KeyFilter(nodes, TypeOf, "module")
  }

  /** The modules are exactly the module nodes, each as often as it occurs among the nodes, and there are as many as module nodes. */
  lemma ModulesFacts(nodes: seq<GraphNode>)
    ensures forall n :: n in Modules(nodes) <==> n in nodes && n.nodeType == "module"
    ensures forall n: GraphNode | n.nodeType == "module" :: multiset(Modules(nodes))[n] == multiset(nodes)[n]
    ensures |Modules(nodes)| == KeyCount(nodes, TypeOf, "module")
  {
    KeyFilterMembers(nodes, TypeOf, "module");
    forall n: GraphNode | n.nodeType == "module"
      ensures multiset(Modules(nodes))[n] == multiset(nodes)[n]
    {
      KeyFilterMultiplicity(nodes, TypeOf, n);
    }
  }

  predicate IsModuleEdge(e: GraphEdge) {
    StartsWith(e.source, "mod-") && StartsWith(e.target, "mod-")
  }

  /** `moduleEdges`: the edges whose two ends carry the "mod-" prefix. */
  function ModuleEdges(edges: seq<GraphEdge>): seq<GraphEdge> {
    Filter(edges, IsModuleEdge)
  }

  function FromNode(id: string): GraphEdge -> bool {
    (e: GraphEdge) => e.source == id
  }

  function IntoNode(id: string): GraphEdge -> bool {
    (e: GraphEdge) => e.target == id
  }

  /** The dependencies a module card lists as outgoing. */
  function Outgoing(edges: seq<GraphEdge>, id: string): seq<GraphEdge> {
    Filter(ModuleEdges(edges), FromNode(id))
  }

  /** The dependencies a module card lists as incoming. */
  function Incoming(edges: seq<GraphEdge>, id: string): seq<GraphEdge> {
    Filter(ModuleEdges(edges), IntoNode(id))
  }

  /**
   * An edge counts as outgoing (incoming) for `id` exactly when it leaves
   * (enters) `id` and both its ends carry the prefix; so a module whose id
   * lacks the prefix shows no dependencies at all.
   */
  lemma DependencyFacts(edges: seq<GraphEdge>, id: string)
    ensures forall e :: e in Outgoing(edges, id) <==> e in edges && e.source == id && StartsWith(e.target, "mod-") && StartsWith(id, "mod-")
    ensures forall e :: e in Incoming(edges, id) <==> e in edges && e.target == id && StartsWith(e.source, "mod-") && StartsWith(id, "mod-")
    ensures !StartsWith(id, "mod-") ==> Outgoing(edges, id) == [] && Incoming(edges, id) == []
  {
    if !StartsWith(id, "mod-") {
      FilterNone(ModuleEdges(edges), FromNode(id));
      FilterNone(ModuleEdges(edges), IntoNode(id));
    }
  }

  predicate IsServiceOrModule(n: GraphNode) {
    n.nodeType == "service" || n.nodeType == "module"
  }

  function LabelOf(n: GraphNode): string {
    n.nodeLabel
  }

  /** The components of the business-logic layer: the labels of the first five service or module nodes. */
  function BusinessLayer(nodes: seq<GraphNode>): seq<string> {
    Project(Take(Filter(nodes, IsServiceOrModule), 5), LabelOf)
  }

  /** At most five names, each the label of the service or module node at that position among such nodes. */
  lemma BusinessLayerFacts(nodes: seq<GraphNode>)
    ensures var layer, eligible := BusinessLayer(nodes), Filter(nodes, IsServiceOrModule);
      && |layer| == (if |eligible| < 5 then |eligible| else 5)
      && forall i | 0 <= i < |layer| :: IsServiceOrModule(eligible[i]) && eligible[i] in nodes && layer[i] == eligible[i].nodeLabel
  {
    var eligible := Filter(nodes, IsServiceOrModule);
    ProjectIndex(Take(eligible, 5), LabelOf);
    assert forall i | 0 <= i < |eligible| :: eligible[i] in eligible;
  }
}
