/**
 * The dependency-graph elements the dashboard pages read: the nodes and
 * edges of the last scan, or the seed graph when no scan is held.
 */
module DashboardGraph {
  import opened Wrappers
  import opened Collections

  /**
   * A node as the pages use it (`nodeLabel` is its `label`).  `risk` is absent for nodes without a risk
   * level; a present but empty risk reads as absent wherever the pages test
   * it for truth.
   */
  datatype GraphNode = GraphNode(id: string, nodeLabel: string, nodeType: string, risk: Option<string>)

  /** An edge; `criticality` is absent for edges without one. */
  datatype GraphEdge = GraphEdge(id: string, source: string, target: string, criticality: Option<string>)

  /** `scanData ? scanData.nodes : seedNodes` (and the same for edges). */
  function CurrentOf<T>(scan: Option<seq<T>>, seed: seq<T>): (r: seq<T>)
    ensures scan.Some? ==> r == scan.value
    ensures scan.None? ==> r == seed
  {
    scan.GetOr(seed)
  }

  function NodeId(n: GraphNode): string {
    n.id
  }

  /** `nodes.find(n => n.id === id)`. */
  function NodeById(nodes: seq<GraphNode>, id: string): Option<GraphNode> {
    Find(nodes, (n: GraphNode) => n.id == id)
  }

  /** The node found is the first one carrying the id, and none is found exactly when no node carries it. */
  lemma NodeByIdFacts(nodes: seq<GraphNode>, id: string)
    ensures NodeById(nodes, id).None? <==> forall i | 0 <= i < |nodes| :: nodes[i].id != id
    ensures NodeById(nodes, id).Some? ==> exists i | 0 <= i < |nodes| ::
      nodes[i] == NodeById(nodes, id).value && nodes[i].id == id && forall j | 0 <= j < i :: nodes[j].id != id
  {
  }
}
