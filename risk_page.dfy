/**
 * The risk and impact page of the dashboard
 * (`src/app/dashboard/risk/page.tsx`): the risk registry (the seed risks, or
 * one card per risk of the last scan), its category and severity filters,
 * the severity summary cards, and the impact simulation picked by a node.
 */
module RiskPage {
  import opened Wrappers
  import opened Strings
  import opened Collections
  import opened DashboardGraph

  /** A risk of the scan, with the fields the page reads. */
  datatype ScanRisk = ScanRisk(
    nodeId: string, riskType: string, severity: string, reason: string,
    affectedDownstreamCount: int, recommendation: string)

  /** The scan the page reads: its nodes and its risks. */
  datatype ScanView = ScanView(nodes: seq<GraphNode>, risks: seq<ScanRisk>)

  /** A card of the registry. */
  datatype RiskItem = RiskItem(
    id: string, title: string, severity: string, category: string, nodeId: string,
    affectedDownstream: int, businessImpact: string, estimatedEffort: string,
    riskType: string, description: string, recommendation: string)

  /** A precomputed impact simulation: the node changed and the nodes it impacts. */
  datatype Simulation = Simulation(changedNode: string, impactedNodes: seq<string>)

  /** The name the business impact gives a node: its label, or "unknown" when no node has the id or its label is empty. */
  function ImpactName(nodes: seq<GraphNode>, nodeId: string): string {
    match NodeById(nodes, nodeId)
    case None => "unknown"
    case Some(n) => if n.nodeLabel == "" then "unknown" else n.nodeLabel
  }

  /** The name is the label of the first node carrying the id, unless there is none or that label is empty. */
  lemma ImpactNameFacts(nodes: seq<GraphNode>, nodeId: string)
    ensures (forall i | 0 <= i < |nodes| :: nodes[i].id != nodeId) ==> ImpactName(nodes, nodeId) == "unknown"
    ensures forall i | 0 <= i < |nodes| && nodes[i].id == nodeId && (forall j | 0 <= j < i :: nodes[j].id != nodeId) ::
      ImpactName(nodes, nodeId) == if nodes[i].nodeLabel == "" then "unknown" else nodes[i].nodeLabel
  {
    var r := NodeById(nodes, nodeId);
    NodeByIdFacts(nodes, nodeId);
    if r.Some? {
      var k :| 0 <= k < |nodes| && nodes[k] == r.value && nodes[k].id == nodeId && forall j | 0 <= j < k :: nodes[j].id != nodeId;
      forall i | 0 <= i < |nodes| && nodes[i].id == nodeId && (forall j | 0 <= j < i :: nodes[j].id != nodeId)
        ensures i == k
      {
        assert nodes[i].id == nodeId && nodes[k].id == nodeId;
      }
    }
  }

  function BusinessImpact(nodes: seq<GraphNode>, nodeId: string): string {
    "Impact on " + ImpactName(nodes, nodeId) + " and downstream dependencies"
  }

  /** The effort estimate: longer recommendations take three days. */
  function Effort(recommendation: string): string {
    if |recommendation| > 50 then "3 days" else "1 day"
  }

  /** The card of the `i`-th scan risk. */
  function Card(nodes: seq<GraphNode>, r: ScanRisk, i: nat): RiskItem {
    RiskItem("risk-" + NatToString(i), r.reason, r.severity, ReplaceChar(r.riskType, '_', ' '), r.nodeId,
      r.affectedDownstreamCount, BusinessImpact(nodes, r.nodeId), Effort(r.recommendation),
      r.riskType, r.reason, r.recommendation)
  }

  /** The registry: the seed risks without a scan, else one card per scan risk. */
  function RiskItems(scan: Option<ScanView>, seed: seq<RiskItem>): (r: seq<RiskItem>)
    ensures scan.Some? ==> |r| == |scan.value.risks|
    ensures scan.Some? ==> forall i | 0 <= i < |r| ::
      r[i].nodeId == scan.value.risks[i].nodeId && r[i].severity == scan.value.risks[i].severity
  {
    match scan
    case None => seed
    case Some(v) => seq(|v.risks|, i requires 0 <= i < |v.risks| => Card(v.nodes, v.risks[i], i))
  }

  /**
   * Without a scan the seed registry is shown; with one, the `i`-th card
   * shows the `i`-th scan risk under the id "risk-i", its type with
   * underscores turned into spaces as the category, and an effort of three
   * days exactly when its recommendation is longer than 50 characters.
   */
  lemma RiskItemsFacts(scan: Option<ScanView>, seed: seq<RiskItem>)
    ensures scan.None? ==> RiskItems(scan, seed) == seed
    ensures scan.Some? ==> |RiskItems(scan, seed)| == |scan.value.risks|
    ensures scan.Some? ==> forall i | 0 <= i < |scan.value.risks| ::
      var card, r := RiskItems(scan, seed)[i], scan.value.risks[i];
      && card.id == "risk-" + NatToString(i)
      && card.title == r.reason && card.description == r.reason
      && card.severity == r.severity && card.nodeId == r.nodeId && card.riskType == r.riskType
      && |card.category| == |r.riskType| && '_' !in card.category
      && (forall k | 0 <= k < |r.riskType| && r.riskType[k] != '_' :: card.category[k] == r.riskType[k])
      && (card.estimatedEffort == "3 days" <==> |r.recommendation| > 50)
      && card.businessImpact == "Impact on " + ImpactName(scan.value.nodes, r.nodeId) + " and downstream dependencies"
  {
  }

  /** The cards of a scan carry pairwise different ids. */
  lemma CardIdsDistinct(v: ScanView, seed: seq<RiskItem>, i: nat, j: nat)
    requires i < j < |v.risks|
    ensures RiskItems(Some(v), seed)[i].id != RiskItems(Some(v), seed)[j].id
  {
    var a, b := RiskItems(Some(v), seed)[i].id, RiskItems(Some(v), seed)[j].id;
    if a == b {
      assert a[5..] == NatToString(i) && b[5..] == NatToString(j);
      NatToStringInjective(i, j);
    }
  }

  /** The filter test: "all" is a wildcard for either filter. */
  function Passes(category: string, severity: string): RiskItem -> bool {
    (r: RiskItem) => (category == "all" || r.category == category) && (severity == "all" || r.severity == severity)
  }

  /** `filteredRisks`. */
  function Filtered(category: string, severity: string, items: seq<RiskItem>): seq<RiskItem> {
    Filter(items, Passes(category, severity))
  }

  /** A card is shown exactly when it matches both filters; with both on "all" the whole registry is shown, in order. */
  lemma FilteredFacts(category: string, severity: string, items: seq<RiskItem>)
    ensures forall r :: r in Filtered(category, severity, items) <==>
      r in items && (category == "all" || r.category == category) && (severity == "all" || r.severity == severity)
    ensures category == "all" && severity == "all" ==> Filtered(category, severity, items) == items
  {
    if category == "all" && severity == "all" {
      FilterAll(items, Passes(category, severity));
    }
  }

  function SeverityOf(r: RiskItem): string {
    r.severity
  }

  /** A summary card: the number of registry risks of a severity, whatever the filters. */
  function SeverityCount(items: seq<RiskItem>, severity: string): nat {
    KeyCount(items, SeverityOf, severity)
  }

  /** Clicking a summary card (category "all") shows exactly as many cards as it counts. */
  lemma SummaryCardMatchesFilter(items: seq<RiskItem>, severity: string)
    requires severity != "all"
    ensures |Filtered("all", severity, items)| == SeverityCount(items, severity)
  {
    FilterIsKeyFilter(items, Passes("all", severity), SeverityOf, severity);
  }

  /** The four summary cards add up to the registry's size when every severity is one of the four. */
  lemma SummaryCovers(items: seq<RiskItem>)
    requires forall r | r in items :: r.severity in ["critical", "high", "medium", "low"]
    ensures SeverityCount(items, "critical") + SeverityCount(items, "high")
      + SeverityCount(items, "medium") + SeverityCount(items, "low") == |items|
  {
    var keys := ["critical", "high", "medium", "low"];
    assert NoDuplicates(keys);
    KeyCountsPartition(items, SeverityOf, keys);
    assert keys[..3] == ["critical", "high", "medium"];
    assert keys[..3][..2] == ["critical", "high"];
    assert keys[..3][..2][..1] == ["critical"];
    assert SumKeyCounts(items, SeverityOf, ["critical"]) == SeverityCount(items, "critical");
    assert SumKeyCounts(items, SeverityOf, ["critical", "high"]) == SeverityCount(items, "critical") + SeverityCount(items, "high");
  }

  /** The simulation shown for the selected node: the first one that changes it; none while no node is selected. */
  function ActiveSimulation(simulations: seq<Simulation>, selected: Option<string>): (r: Option<Simulation>)
    ensures selected.None? ==> r.None?
    ensures selected.Some? ==> (r.None? <==> forall i | 0 <= i < |simulations| :: simulations[i].changedNode != selected.value)
    ensures r.Some? ==> r.value in simulations && r.value.changedNode == selected.value
  {
    match selected
    case None => None
    case Some(id) => Find(simulations, (s: Simulation) => s.changedNode == id)
  }

  /** The node chips offered for simulation: the first ten nodes. */
  function SimulableChips(nodes: seq<GraphNode>): (r: seq<GraphNode>)
    ensures |r| == if |nodes| < 10 then |nodes| else 10
    ensures forall i | 0 <= i < |r| :: r[i] == nodes[i]
  {
    Take(nodes, 10)
  }
}
