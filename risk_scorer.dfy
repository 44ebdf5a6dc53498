/**
 * The risk scorer (`engine/services/risk_scorer.py`): each exported graph
 * node is classified into one of four severities by integer thresholds on its
 * downstream count and complexity, given a risk type by a fixed precedence,
 * and the risks are listed by severity; `simulate_impact` reports what lies
 * downstream of a node.
 */
module RiskScorer {
  import opened Wrappers
  import opened Strings
  import opened Collections
  import opened Graphs

  datatype Severity = Critical | High | Medium | Low

  /** The sort key of `score_all`. */
  function Rank(s: Severity): nat {
    match s
    case Critical => 0
    case High => 1
    case Medium => 2
    case Low => 3
  }

  function SeverityName(s: Severity): string {
    match s
    case Critical => "critical"
    case High => "high"
    case Medium => "medium"
    case Low => "low"
  }

  // ---------------------------------------------------------------------------
  // Thresholds

  const ThresholdKeys: set<string> :=
    {"critical_downstream", "high_downstream", "medium_downstream", "critical_complexity", "high_complexity"}

  function DefaultThresholds(): (t: map<string, int>)
    ensures ThresholdKeys <= t.Keys
  {
    map["critical_downstream" := 40, "high_downstream" := 20, "medium_downstream" := 5,
        "critical_complexity" := 40, "high_complexity" := 25]
  }

  predicate HasThresholds(t: map<string, int>) {
    ThresholdKeys <= t.Keys
  }

  /**
   * `_determine_severity`: the first band whose threshold is reached. Read
   * cumulatively: critical exactly when a critical threshold is reached, at
   * least high exactly when a critical or high one is, and above low exactly
   * when any threshold is.
   */
  function DetermineSeverity(t: map<string, int>, downstream: int, complexity: int): (s: Severity)
    requires HasThresholds(t)
    ensures s == Critical <==> downstream >= t["critical_downstream"] || complexity >= t["critical_complexity"]
    ensures Rank(s) <= 1 <==>
      downstream >= t["critical_downstream"] || complexity >= t["critical_complexity"]
      || downstream >= t["high_downstream"] || complexity >= t["high_complexity"]
    ensures s != Low <==>
      downstream >= t["critical_downstream"] || complexity >= t["critical_complexity"]
      || downstream >= t["high_downstream"] || complexity >= t["high_complexity"]
      || downstream >= t["medium_downstream"]
  {
    if downstream >= t["critical_downstream"] || complexity >= t["critical_complexity"] then Critical
    else if downstream >= t["high_downstream"] || complexity >= t["high_complexity"] then High
    else if downstream >= t["medium_downstream"] then Medium
    else Low
  }

  /** With the initial thresholds, each severity band is characterised outright. */
  lemma DefaultSeverityBands(downstream: int, complexity: int)
    ensures var s := DetermineSeverity(DefaultThresholds(), downstream, complexity);
      && (s == Critical <==> downstream >= 40 || complexity >= 40)
      && (s == High <==> !(downstream >= 40 || complexity >= 40) && (downstream >= 20 || complexity >= 25))
      && (s == Medium <==> downstream < 20 && complexity < 25 && downstream >= 5)
      && (s == Low <==> downstream < 5 && complexity < 25)
  {
  }

  /** Complexity alone never makes a node medium: that band is reached through the downstream count only. */
  lemma MediumNeedsDownstream(t: map<string, int>, downstream: int, complexity: int)
    requires HasThresholds(t)
    ensures DetermineSeverity(t, downstream, complexity) == Medium ==> downstream >= t["medium_downstream"]
    ensures DetermineSeverity(t, downstream, complexity) == Medium ==>
      DetermineSeverity(t, downstream, complexity + 1) in {Medium, High, Critical}
  {
  }

  /** A larger downstream count or complexity never lowers the severity, whatever the thresholds. */
  lemma SeverityMonotone(t: map<string, int>, d1: int, c1: int, d2: int, c2: int)
    requires HasThresholds(t)
    requires d1 <= d2 && c1 <= c2
    ensures Rank(DetermineSeverity(t, d2, c2)) <= Rank(DetermineSeverity(t, d1, c1))
  {
  }

  // ---------------------------------------------------------------------------
  // Scoring one node

  /** An exported graph node as the scorer reads it; absent keys are `None`. */
  datatype RiskNode = RiskNode(
    id: string, labelText: Option<string>, kind: Option<string>,
    downstreamCount: Option<int>, complexity: Option<int>)

  /** `_determine_risk_type`: complexity first, then coupling, then the node type. */
  function DetermineRiskType(node: RiskNode, complexity: int): (r: string)
    ensures r == "Complexity" <==> complexity > 30
    ensures r == "High Coupling" <==> complexity <= 30 && node.downstreamCount.GetOr(0) > 30
    ensures r == "Function Risk" <==>
      complexity <= 30 && node.downstreamCount.GetOr(0) <= 30 && node.kind == Some("function")
    ensures r == "General Risk" <==>
      complexity <= 30 && node.downstreamCount.GetOr(0) <= 30 && node.kind != Some("function")
  {
    if complexity > 30 then "Complexity"
    else if node.downstreamCount.GetOr(0) > 30 then "High Coupling"
    else if node.kind == Some("function") then "Function Risk"
    else "General Risk"
  }

  const GenericRecommendation := "Review and address identified concerns."
  const RefactorAdvice := "Consider refactoring into smaller, focused functions. Apply Single Responsibility Principle."
  const DecouplingAdvice := "Introduce abstraction layer or interface to reduce tight coupling. Consider event-driven architecture."
  const TestingAdvice := "Add comprehensive unit tests. Implement input validation and error handling."
  const DocumentationAdvice := "Review code for maintainability. Add documentation and test coverage."

  /** None of the four specific texts is the generic one. */
  lemma SpecificAdviceIsNotGeneric()
    ensures RefactorAdvice != GenericRecommendation && DecouplingAdvice != GenericRecommendation
    ensures TestingAdvice != GenericRecommendation && DocumentationAdvice != GenericRecommendation
  {
    assert |GenericRecommendation| == 39;
  }

  /** `_generate_recommendation`: one fixed text per risk type, a generic one otherwise. */
  function GenerateRecommendation(riskType: string, severity: Severity): (r: string)
    ensures r != GenericRecommendation <==>
      riskType in {"Complexity", "High Coupling", "Function Risk", "General Risk"}
  {
    SpecificAdviceIsNotGeneric();
    if riskType == "Complexity" then RefactorAdvice
    else if riskType == "High Coupling" then DecouplingAdvice
    else if riskType == "Function Risk" then TestingAdvice
    else if riskType == "General Risk" then DocumentationAdvice
    else GenericRecommendation
  }

  /** The recommendation depends on the risk type alone, never on the severity. */
  lemma RecommendationIgnoresSeverity(riskType: string, s1: Severity, s2: Severity)
    ensures GenerateRecommendation(riskType, s1) == GenerateRecommendation(riskType, s2)
  {
  }

  /** `_generate_description`: the label (default "Unknown") and the figures, worded by severity. */
  function GenerateDescription(node: RiskNode, severity: Severity, downstream: int, complexity: int): (r: string)
    ensures StartsWith(r, node.labelText.GetOr("Unknown"))
  {
    var labelText := node.labelText.GetOr("Unknown");
    var d := IntToString(downstream);
    var c := IntToString(complexity);
    if severity == Critical then
      labelText + " has " + d + " downstream dependencies and cyclomatic complexity of " + c
      + ". Changes here have cascading impact across the system."
    else if severity == High then
      labelText + " has significant downstream impact (" + d + " nodes) with elevated complexity (" + c
      + "). Requires careful review."
    else labelText + " has " + d + " downstream dependencies. Moderate risk."
  }

  /** A risk record as `_score_node` emits it. */
  datatype Risk = Risk(
    id: string, nodeId: string, labelText: string, severity: Severity, riskType: string,
    downstreamCount: int, complexity: int, description: string, recommendation: string)

  /** `_score_node`: nothing for a low-severity node of complexity below 5. */
  function ScoreNode(t: map<string, int>, node: RiskNode): (r: Option<Risk>)
    requires HasThresholds(t)
    ensures r.None? <==>
      DetermineSeverity(t, node.downstreamCount.GetOr(0), node.complexity.GetOr(0)) == Low && node.complexity.GetOr(0) < 5
    ensures r.Some? ==>
      && r.value.id == "risk-" + node.id && r.value.nodeId == node.id
      && r.value.labelText == node.labelText.GetOr("")
      && r.value.severity == DetermineSeverity(t, node.downstreamCount.GetOr(0), node.complexity.GetOr(0))
      && r.value.riskType == DetermineRiskType(node, node.complexity.GetOr(0))
      && r.value.recommendation == GenerateRecommendation(r.value.riskType, r.value.severity)
  {
    var downstream := node.downstreamCount.GetOr(0);
    var complexity := node.complexity.GetOr(0);
    var severity := DetermineSeverity(t, downstream, complexity);
    if severity == Low && complexity < 5 then None
    else
      var riskType := DetermineRiskType(node, complexity);
      Some(Risk("risk-" + node.id, node.id, node.labelText.GetOr(""), severity, riskType, downstream, complexity,
                GenerateDescription(node, severity, downstream, complexity),
                GenerateRecommendation(riskType, severity)))
  }

  // ---------------------------------------------------------------------------
  // Scoring every node, then the stable sort by rank

  /** The risks of the nodes that yield one, in node order. */
  function ScoredRisks(t: map<string, int>, nodes: seq<RiskNode>): (r: seq<Risk>)
    requires HasThresholds(t)
    ensures |r| <= |nodes|
  {
    if nodes == [] then []
    else
      var prev := ScoredRisks(t, nodes[..|nodes| - 1]);
      match ScoreNode(t, nodes[|nodes| - 1])
      case None => prev
      case Some(risk) => prev + [risk]
  }

  /** Every scored risk comes from an input node and names it. */
  lemma {:induction false} ScoredRisksFromNodes(t: map<string, int>, nodes: seq<RiskNode>)
    requires HasThresholds(t)
    ensures forall r | r in ScoredRisks(t, nodes) :: exists i | 0 <= i < |nodes| :: ScoreNode(t, nodes[i]) == Some(r)
  {
    if nodes != [] {
      var init := nodes[..|nodes| - 1];
      ScoredRisksFromNodes(t, init);
      forall r | r in ScoredRisks(t, nodes)
        ensures exists i | 0 <= i < |nodes| :: ScoreNode(t, nodes[i]) == Some(r)
      {
        if r in ScoredRisks(t, init) {
          var i :| 0 <= i < |init| && ScoreNode(t, init[i]) == Some(r);
          assert nodes[i] == init[i];
        } else {
          assert ScoreNode(t, nodes[|nodes| - 1]) == Some(r);
        }
      }
    }
  }

  function SeverityOf(r: Risk): Severity {
    r.severity
  }

  /**
   * Python's stable `sorted` by rank: the critical risks, then the high, the
   * medium and the low ones, each group in its original order.
   */
  function SortBySeverity(rs: seq<Risk>): (r: seq<Risk>)
    ensures forall x :: x in r <==> x in rs
  {
    KeyFilterMembers(rs, SeverityOf, Critical);
    KeyFilterMembers(rs, SeverityOf, High);
    KeyFilterMembers(rs, SeverityOf, Medium);
    KeyFilterMembers(rs, SeverityOf, Low);
    var c, h, m, l := KeyFilter(rs, SeverityOf, Critical), KeyFilter(rs, SeverityOf, High),
                      KeyFilter(rs, SeverityOf, Medium), KeyFilter(rs, SeverityOf, Low);
    assert forall x :: x in c + h + m + l <==> x in c || x in h || x in m || x in l;
    SeverityBands(rs);
    c + h + m + l
  }

  /** Every risk falls in one of the four severity bands. */
  lemma SeverityBands(rs: seq<Risk>)
    ensures forall x | x in rs ::
      || x in KeyFilter(rs, SeverityOf, Critical) || x in KeyFilter(rs, SeverityOf, High)
      || x in KeyFilter(rs, SeverityOf, Medium) || x in KeyFilter(rs, SeverityOf, Low)
  {
    KeyFilterMembers(rs, SeverityOf, Critical);
    KeyFilterMembers(rs, SeverityOf, High);
    KeyFilterMembers(rs, SeverityOf, Medium);
    KeyFilterMembers(rs, SeverityOf, Low);
    forall x | x in rs
      ensures x.severity in {Critical, High, Medium, Low}
    {
      match x.severity
      case Critical =>
      case High =>
      case Medium =>
      case Low =>
    }
  }

  predicate SortedByRank(rs: seq<Risk>) {
    forall i, j | 0 <= i < j < |rs| :: Rank(rs[i].severity) <= Rank(rs[j].severity)
  }

  lemma KeyFilterSeverity(rs: seq<Risk>, s: Severity)
    ensures forall r | r in KeyFilter(rs, SeverityOf, s) :: r.severity == s
  {
    KeyFilterMembers(rs, SeverityOf, s);
  }

  /** The sorted list is ordered by rank. */
  lemma SortBySeveritySorted(rs: seq<Risk>)
    ensures SortedByRank(SortBySeverity(rs))
  {
    KeyFilterSeverity(rs, Critical);
    KeyFilterSeverity(rs, High);
    KeyFilterSeverity(rs, Medium);
    KeyFilterSeverity(rs, Low);
    var c, h, m, l := KeyFilter(rs, SeverityOf, Critical), KeyFilter(rs, SeverityOf, High),
                      KeyFilter(rs, SeverityOf, Medium), KeyFilter(rs, SeverityOf, Low);
    var r := SortBySeverity(rs);
    forall i | 0 <= i < |r|
      ensures Rank(r[i].severity) == if i < |c| then 0 else if i < |c| + |h| then 1
                                     else if i < |c| + |h| + |m| then 2 else 3
    {
      if i < |c| {
        assert r[i] == c[i];
      } else if i < |c| + |h| {
        assert r[i] == h[i - |c|];
      } else if i < |c| + |h| + |m| {
        assert r[i] == m[i - |c| - |h|];
      } else {
        assert r[i] == l[i - |c| - |h| - |m|];
      }
    }
  }

  /** The sorted list holds exactly the risks it was given, each as often. */
  lemma SortBySeverityPermutation(rs: seq<Risk>)
    ensures multiset(SortBySeverity(rs)) == multiset(rs)
  {
    forall y
      ensures multiset(SortBySeverity(rs))[y] == multiset(rs)[y]
    {
      SeverityMultiplicity(rs, y);
    }
  }

  /** Only the group of its own severity can hold a risk, and that group holds every copy of it. */
  lemma SeverityMultiplicity(rs: seq<Risk>, y: Risk)
    ensures multiset(SortBySeverity(rs))[y] == multiset(rs)[y]
  {
    KeyFilterMultiplicity(rs, SeverityOf, y);
    assert SeverityOf(y) == y.severity;
    KeyFilterMembers(rs, SeverityOf, Critical);
    KeyFilterMembers(rs, SeverityOf, High);
    KeyFilterMembers(rs, SeverityOf, Medium);
    KeyFilterMembers(rs, SeverityOf, Low);
    var c, h, m, l := KeyFilter(rs, SeverityOf, Critical), KeyFilter(rs, SeverityOf, High),
                      KeyFilter(rs, SeverityOf, Medium), KeyFilter(rs, SeverityOf, Low);
    assert multiset(SortBySeverity(rs))[y] == multiset(c)[y] + multiset(h)[y] + multiset(m)[y] + multiset(l)[y];
    match y.severity
    case Critical =>
      assert y !in h && y !in m && y !in l;
    case High =>
      assert y !in c && y !in m && y !in l;
    case Medium =>
      assert y !in c && y !in h && y !in l;
    case Low =>
      assert y !in c && y !in h && y !in m;
  }

  /** Stability: the risks of each severity keep their relative order. */
  lemma SortBySeverityStable(rs: seq<Risk>, s: Severity)
    ensures KeyFilter(SortBySeverity(rs), SeverityOf, s) == KeyFilter(rs, SeverityOf, s)
  {
    KeyFilterBands(rs, SeverityOf, Critical, High, Medium, Low, s);
  }

  // ---------------------------------------------------------------------------
  // Impact simulation

  /** One entry of `impacts`: a node downstream of the changed one. */
  datatype Impact = Impact(nodeId: string, labelText: string, kind: string, severity: Severity)

  datatype Simulation =
    | NodeNotFound
    | Simulation(changedNode: string, totalDownstream: nat, totalUpstream: nat, impacts: seq<Impact>,
                 blastRadius: nat, blastSeverity: Severity)

  /** The entry for descendant `d`: its label (its id when it has none), high when more than 10 nodes depend on it. */
  function ImpactOf(g: DiGraph, d: string): (r: Impact)
    requires WellFormed(g) && d in g.nodes
    ensures r.nodeId == d && r.kind == "downstream"
    ensures r.severity == High <==> |Descendants(g, d)| > 10
    ensures r.severity != High ==> r.severity == Medium
  {
    Impact(d, if d in g.attrs then g.attrs[d].labelText else d, "downstream",
           if |Descendants(g, d)| > 10 then High else Medium)
  }

  /** The severity of the blast radius. */
  function BlastSeverity(n: nat): (s: Severity)
    ensures s == Critical <==> n > 30
    ensures s == High <==> 10 < n <= 30
    ensures s == Medium <==> n <= 10
  {
    if n > 30 then Critical else if n > 10 then High else Medium
  }

  // ---------------------------------------------------------------------------
  // The scorer object

  class Scorer {
    var thresholds: map<string, int>

    ghost predicate Valid()
      reads this
    {
      HasThresholds(thresholds)
    }

    constructor()
      ensures Valid() && thresholds == DefaultThresholds()
    {
      thresholds := DefaultThresholds();
    }

    /** `update_thresholds`: the supplied thresholds overwrite or join the current ones; the rest stay. */
    method UpdateThresholds(newThresholds: map<string, int>)
      requires Valid()
      modifies this
      ensures Valid()
      ensures thresholds == old(thresholds) + newThresholds
      ensures thresholds.Keys == old(thresholds).Keys + newThresholds.Keys
      ensures forall k | k in newThresholds :: thresholds[k] == newThresholds[k]
      ensures forall k | k in old(thresholds) && k !in newThresholds :: thresholds[k] == old(thresholds)[k]
    {
      thresholds := thresholds + newThresholds;
    }

    /** `score_all`: score each node in turn, keep the risks, then sort them stably by rank. */
    method ScoreAll(nodes: seq<RiskNode>) returns (risks: seq<Risk>)
      requires Valid()
      ensures risks == SortBySeverity(ScoredRisks(thresholds, nodes))
    {
      var found: seq<Risk> := [];
      var i := 0;
      while i < |nodes|
        invariant 0 <= i <= |nodes|
        invariant found == ScoredRisks(thresholds, nodes[..i])
      {
        assert nodes[..i + 1][..i] == nodes[..i];
        var risk := ScoreNode(thresholds, nodes[i]);
        if risk.Some? {
          found := found + [risk.value];
        }
        i := i + 1;
      }
      assert nodes[..i] == nodes;
      risks := SortBySeverity(found);
    }

    /**
     * `simulate_impact`: nothing for a missing graph or node; otherwise the
     * descendants and ancestors counted, at most 20 impact entries (one per
     * descendant, in the set's iteration order) and the blast radius.
     */
    method SimulateImpact(nodeId: string, graph: Option<DiGraph>) returns (r: Simulation)
      requires graph.Some? ==> WellFormed(graph.value)
      ensures graph.None? || nodeId !in graph.value.nodes <==> r == NodeNotFound
      ensures r.Simulation? ==>
        var g := graph.value;
        && r.changedNode == nodeId
        && r.totalDownstream == r.blastRadius == |Descendants(g, nodeId)|
        && r.totalUpstream == |Ancestors(g, nodeId)|
        && |r.impacts| == (if r.totalDownstream < 20 then r.totalDownstream else 20)
        && (forall i | 0 <= i < |r.impacts| ::
              r.impacts[i].nodeId in Descendants(g, nodeId) && r.impacts[i] == ImpactOf(g, r.impacts[i].nodeId))
        && (forall i, j | 0 <= i < j < |r.impacts| :: r.impacts[i].nodeId != r.impacts[j].nodeId)
        && r.blastSeverity == BlastSeverity(r.blastRadius)
    {
      if graph.None? || nodeId !in graph.value.nodes {
        return NodeNotFound;
      }
      var g := graph.value;
      var descendants := Enumerate(Descendants(g, nodeId));
      var ancestors := Enumerate(Ancestors(g, nodeId));
      DescendantsWithin(g, nodeId);
      var impacts := ImpactEntries(g, descendants);
      var shown := Take(impacts, 20);
      ShownImpacts(g, nodeId, descendants, impacts, shown);
      r := Simulation(nodeId, |descendants|, |ancestors|, shown, |descendants|, BlastSeverity(|descendants|));
    }
  }

  /** A prefix of the entries of distinct descendants shows distinct descendants, each with its own entry. */
  lemma ShownImpacts(g: DiGraph, n: string, ds: seq<string>, impacts: seq<Impact>, shown: seq<Impact>)
    requires WellFormed(g) && n in g.nodes
    requires forall x :: x in ds <==> x in Descendants(g, n)
    requires NoDuplicates(ds) && forall d | d in ds :: d in g.nodes
    requires |impacts| == |ds| && forall k | 0 <= k < |ds| :: impacts[k] == ImpactOf(g, ds[k])
    requires |shown| <= |impacts| && shown == impacts[..|shown|]
    ensures forall i | 0 <= i < |shown| ::
      shown[i].nodeId in Descendants(g, n) && shown[i] == ImpactOf(g, shown[i].nodeId)
    ensures forall i, j | 0 <= i < j < |shown| :: shown[i].nodeId != shown[j].nodeId
  {
    forall i | 0 <= i < |shown|
      ensures shown[i].nodeId == ds[i] && shown[i] == ImpactOf(g, ds[i])
    {
      assert shown[i] == impacts[i];
    }
  }

  /** The loop of `simulate_impact`: one entry per listed descendant, in order. */
  method ImpactEntries(g: DiGraph, ds: seq<string>) returns (impacts: seq<Impact>)
    requires WellFormed(g) && forall d | d in ds :: d in g.nodes
    ensures |impacts| == |ds|
    ensures forall k | 0 <= k < |ds| :: impacts[k] == ImpactOf(g, ds[k])
  {
    impacts := [];
    var i := 0;
    while i < |ds|
      invariant 0 <= i <= |ds| && |impacts| == i
      invariant forall k | 0 <= k < i :: impacts[k] == ImpactOf(g, ds[k])
    {
      assert ds[i] in ds;
      impacts := impacts + [ImpactOf(g, ds[i])];
      i := i + 1;
    }
  }

  lemma DescendantsWithin(g: DiGraph, n: string)
    requires WellFormed(g) && n in g.nodes
    ensures forall d | d in Descendants(g, n) :: d in g.nodes
  {
  }
}
