/**
 * The business-capability mapper (`engine/services/business_mapper.py`):
 * every parsed node is scored against each capability of a BIAN-style
 * taxonomy by keyword substrings, the best capability (first wins on a tie)
 * becomes its mapping, and the mappings are summarised per capability and
 * per domain.
 */
module BusinessMapper {
  import opened Wrappers
  import opened Strings
  import opened Collections
  import opened AstParser

  /** One taxonomy entry: its name, keywords, business domain and criticality. */
  datatype Capability = Capability(name: string, keywords: seq<string>, domain: string, criticality: string)

  /** A taxonomy is a dictionary keyed by capability name, so names are distinct. */
  predicate TaxonomyOk(tax: seq<Capability>) {
    forall i, j | 0 <= i < j < |tax| :: tax[i].name != tax[j].name
  }

  /** `BIAN_TAXONOMY`, in its dictionary order. */
  const BianTaxonomy: seq<Capability> := [
    Capability("Payment Processing",
      ["payment", "pay", "transfer", "remit", "settlement", "clearing", "swift", "sepa", "ach", "wire"],
      "Operations", "critical"),
    Capability("AML Compliance",
      ["aml", "anti-money", "laundering", "sanctions", "screening", "suspicious", "sar", "ctr", "fincen"],
      "Compliance", "critical"),
    Capability("KYC Onboarding",
      ["kyc", "know your customer", "identity", "verification", "onboard", "customer_verification", "id_check"],
      "Customer Management", "high"),
    Capability("Treasury Operations",
      ["treasury", "liquidity", "cash_management", "forex", "fx", "currency", "funding"],
      "Operations", "high"),
    Capability("Trade Processing",
      ["trade", "order", "execution", "matching", "settlement", "clearing", "position", "portfolio"],
      "Capital Markets", "high"),
    Capability("Regulatory Reporting",
      ["regulatory", "report", "basel", "compliance", "filing", "disclosure", "audit", "regulator"],
      "Compliance", "critical"),
    Capability("Financial Accounting",
      ["ledger", "accounting", "journal", "posting", "debit", "credit", "balance_sheet", "gl", "chart_of_accounts"],
      "Finance", "critical"),
    Capability("Access Control",
      ["auth", "authentication", "authorization", "rbac", "permission", "role", "session", "mfa", "login"],
      "Security", "high"),
    Capability("Risk Management",
      ["risk", "credit_risk", "market_risk", "operational_risk", "var", "stress_test", "exposure"],
      "Risk", "high"),
    Capability("Customer Management",
      ["customer", "client", "account", "profile", "preference", "contact", "crm"],
      "Customer Management", "medium"),
    Capability("Fraud Detection",
      ["fraud", "detect", "anomaly", "suspicious", "alert", "monitoring", "pattern"],
      "Security", "critical"),
    Capability("Notification Services",
      ["notification", "email", "sms", "push", "alert", "message", "communication"],
      "Infrastructure", "low")
  ]

  // ---------------------------------------------------------------------------
  // Scoring

  /** The lower-cased text a node is searched in: label, file and the space-joined calls, space-separated. */
  function SearchText(node: ParsedNode): string {
    Lower(Join([node.labelText, node.file, if node.calls.Some? then Join(node.calls.value, " ") else ""], " "))
  }

  /** The label is a prefix of the search text, so a keyword in the label is also in the text. */
  lemma LabelKeywordInText(node: ParsedNode, keyword: string)
    requires Contains(Lower(node.labelText), keyword)
    ensures Contains(SearchText(node), keyword)
  {
    var rest := if node.calls.Some? then Join(node.calls.value, " ") else "";
    var tail := " " + Join([node.file, rest], " ");
    assert Join([node.labelText, node.file, rest], " ") == node.labelText + tail;
    LowerConcat(node.labelText, tail);
    ContainsPrefixPart(Lower(node.labelText), Lower(tail), keyword);
  }

  /** One point for a keyword in the search text, two more when it is also in the label. */
  function KeywordPoints(keyword: string, text: string, labelLower: string): nat {
    if Contains(text, keyword) then 1 + (if Contains(labelLower, keyword) then 2 else 0) else 0
  }

  function ScoreKeywords(keywords: seq<string>, text: string, labelLower: string): nat {
    if keywords == [] then 0
    else ScoreKeywords(keywords[..|keywords| - 1], text, labelLower) + KeywordPoints(keywords[|keywords| - 1], text, labelLower)
  }

  /** The number of keywords found in `s`. */
  function Hits(keywords: seq<string>, s: string): nat
    ensures Hits(keywords, s) <= |keywords|
  {
    if keywords == [] then 0
    else Hits(keywords[..|keywords| - 1], s) + (if Contains(s, keywords[|keywords| - 1]) then 1 else 0)
  }

  /**
   * A capability's score: one per keyword found in the text plus two per
   * keyword found in the label, when every label hit is also a text hit.
   */
  lemma {:induction false} ScoreIsHits(keywords: seq<string>, text: string, labelLower: string)
    requires forall k | k in keywords :: Contains(labelLower, k) ==> Contains(text, k)
    ensures ScoreKeywords(keywords, text, labelLower) == Hits(keywords, text) + 2 * Hits(keywords, labelLower)
  {
    if keywords != [] {
      ScoreIsHits(keywords[..|keywords| - 1], text, labelLower);
    }
  }

  function CapabilityScore(cap: Capability, node: ParsedNode): nat {
    ScoreKeywords(cap.keywords, SearchText(node), Lower(node.labelText))
  }

  /** The score of a capability for a node, in terms of its keyword hits; at most three per keyword. */
  lemma CapabilityScoreHits(cap: Capability, node: ParsedNode)
    ensures CapabilityScore(cap, node) == Hits(cap.keywords, SearchText(node)) + 2 * Hits(cap.keywords, Lower(node.labelText))
    ensures CapabilityScore(cap, node) <= 3 * |cap.keywords|
  {
    forall k | k in cap.keywords
      ensures Contains(Lower(node.labelText), k) ==> Contains(SearchText(node), k)
    {
      if Contains(Lower(node.labelText), k) {
        LabelKeywordInText(node, k);
      }
    }
    ScoreIsHits(cap.keywords, SearchText(node), Lower(node.labelText));
  }

  // ---------------------------------------------------------------------------
  // The best match

  /**
   * The running best of `_find_capability`: the best score so far (starting
   * at 0) and where it was first reached; a later score replaces it only if
   * strictly greater.
   */
  function BestSoFar(scores: seq<nat>): (r: (nat, Option<nat>))
    ensures r.1.None? <==> r.0 == 0
    ensures forall j | 0 <= j < |scores| :: scores[j] <= r.0
    ensures r.1.Some? ==> r.1.value < |scores| && scores[r.1.value] == r.0
    ensures r.1.Some? ==> forall j | 0 <= j < r.1.value :: scores[j] < r.0
  {
    if scores == [] then (0, None)
    else
      var prev := BestSoFar(scores[..|scores| - 1]);
      var last := scores[|scores| - 1];
      if last > prev.0 then (last, Some(|scores| - 1)) else prev
  }

  function Scores(tax: seq<Capability>, node: ParsedNode): (r: seq<nat>)
    ensures |r| == |tax|
    ensures forall i | 0 <= i < |tax| :: r[i] == CapabilityScore(tax[i], node)
  {
    seq(|tax|, i requires 0 <= i < |tax| => CapabilityScore(tax[i], node))
  }

  /** The matched capability as `_find_capability` reports it. */
  datatype CapabilityMatch = CapabilityMatch(name: string, domain: string, criticality: string, confidence: nat)

  /** `min(95, 50 + score * 15)`. */
  function Confidence(score: nat): (c: nat)
    ensures score >= 1 ==> 65 <= c <= 95
  {
    if 50 + score * 15 < 95 then 50 + score * 15 else 95
  }

  function MatchOf(cap: Capability, score: nat): CapabilityMatch {
    CapabilityMatch(cap.name, cap.domain, cap.criticality, Confidence(score))
  }

  /** The capability a node maps to, if any: one of the taxonomy, with a confidence of 65 to 95. */
  function BestMatch(tax: seq<Capability>, node: ParsedNode): (r: Option<CapabilityMatch>)
    ensures r.Some? ==> exists i | 0 <= i < |tax| :: r.value.name == tax[i].name && r.value.domain == tax[i].domain
    ensures r.Some? ==> 65 <= r.value.confidence <= 95
  {
    var b := BestSoFar(Scores(tax, node));
    if b.1.Some? then Some(MatchOf(tax[b.1.value], b.0)) else None
  }

  /**
   * No match iff every capability scores 0; otherwise the match is the
   * first capability with the highest score, with confidence in [65, 95].
   */
  lemma BestMatchFacts(tax: seq<Capability>, node: ParsedNode)
    ensures BestMatch(tax, node).None? <==> forall i | 0 <= i < |tax| :: CapabilityScore(tax[i], node) == 0
    ensures BestMatch(tax, node).Some? ==>
      exists i | 0 <= i < |tax| ::
        && BestMatch(tax, node).value == MatchOf(tax[i], CapabilityScore(tax[i], node))
        && CapabilityScore(tax[i], node) > 0
        && (forall j | 0 <= j < |tax| :: CapabilityScore(tax[j], node) <= CapabilityScore(tax[i], node))
        && (forall j | 0 <= j < i :: CapabilityScore(tax[j], node) < CapabilityScore(tax[i], node))
    ensures BestMatch(tax, node).Some? ==> 65 <= BestMatch(tax, node).value.confidence <= 95
  {
    var scores := Scores(tax, node);
    var b := BestSoFar(scores);
    if b.1.Some? {
      var i := b.1.value;
      assert BestMatch(tax, node).value == MatchOf(tax[i], CapabilityScore(tax[i], node));
    } else {
      forall i | 0 <= i < |tax|
        ensures CapabilityScore(tax[i], node) == 0
      {
        assert scores[i] <= 0;
      }
    }
  }

  /** `_find_capability`: the keyword scores capability by capability, keeping the first strictly best. */
  method FindCapability(tax: seq<Capability>, node: ParsedNode) returns (r: Option<CapabilityMatch>)
    ensures r == BestMatch(tax, node)
  {
    var searchText := SearchText(node);
    var labelLower := Lower(node.labelText);
    var bestMatch: Option<CapabilityMatch> := None;
    var bestScore: nat := 0;
    var i := 0;
    ghost var scores := Scores(tax, node);
    while i < |tax|
      invariant 0 <= i <= |tax|
      invariant bestScore == BestSoFar(scores[..i]).0
      invariant bestMatch == if BestSoFar(scores[..i]).1.Some? then Some(MatchOf(tax[BestSoFar(scores[..i]).1.value], bestScore)) else None
    {
      assert scores[..i + 1][..i] == scores[..i];
      var score := KeywordScore(tax[i].keywords, searchText, labelLower);
      if score > bestScore {
        bestScore := score;
        bestMatch := Some(CapabilityMatch(tax[i].name, tax[i].domain, tax[i].criticality, Confidence(score)));
      }
      i := i + 1;
    }
    assert scores[..i] == scores;
    r := if bestScore > 0 then bestMatch else None;
  }

  /** The inner loop of `_find_capability`: the score of one capability. */
  method KeywordScore(keywords: seq<string>, searchText: string, labelLower: string) returns (score: nat)
    ensures score == ScoreKeywords(keywords, searchText, labelLower)
  {
    score := 0;
    var j := 0;
    while j < |keywords|
      invariant 0 <= j <= |keywords|
      invariant score == ScoreKeywords(keywords[..j], searchText, labelLower)
    {
      assert keywords[..j + 1][..j] == keywords[..j];
      if Contains(searchText, keywords[j]) {
        score := score + 1;
        if Contains(labelLower, keywords[j]) {
          score := score + 2;
        }
      }
      j := j + 1;
    }
    assert keywords[..j] == keywords;
  }

  // ---------------------------------------------------------------------------
  // Mappings

  /** One entry of `map_to_capabilities`. */
  datatype Mapping = Mapping(
    nodeId: string, nodeLabel: string, nodeType: string, file: string,
    capability: string, domain: string, criticality: string, confidence: nat)

  function MappingOf(node: ParsedNode, m: CapabilityMatch): Mapping {
    Mapping(node.id, node.labelText, node.kind, node.file, m.name, m.domain, m.criticality, m.confidence)
  }

  /** The mapping a node yields, if it matches. */
  function MapNode(tax: seq<Capability>): ParsedNode -> Option<Mapping> {
    (node: ParsedNode) => match BestMatch(tax, node)
      case None => None
      case Some(m) => Some(MappingOf(node, m))
  }

  /** The mappings of the nodes that match, in node order. */
  function Mappings(tax: seq<Capability>, nodes: seq<ParsedNode>): seq<Mapping> {
    FilterMap(nodes, MapNode(tax))
  }

  /**
   * Exactly one mapping per matching node, in node order: the k-th mapping
   * belongs to node `idx[k]` and carries its id, the indices increase, and
   * they are precisely the nodes with a match.
   */
  lemma MappingsPerNode(tax: seq<Capability>, nodes: seq<ParsedNode>) returns (idx: seq<nat>)
    ensures |idx| == |Mappings(tax, nodes)| <= |nodes|
    ensures forall k | 0 <= k < |idx| ::
      (idx[k] < |nodes| && BestMatch(tax, nodes[idx[k]]).Some?
       && Mappings(tax, nodes)[k] == MappingOf(nodes[idx[k]], BestMatch(tax, nodes[idx[k]]).value)
       && Mappings(tax, nodes)[k].nodeId == nodes[idx[k]].id)
    ensures forall k, l | 0 <= k < l < |idx| :: idx[k] < idx[l]
    ensures forall i | 0 <= i < |nodes| :: BestMatch(tax, nodes[i]).Some? ==> i in idx
  {
    idx := FilterMapIndices(nodes, MapNode(tax));
  }

  /** Every mapping names a capability of the taxonomy and has confidence in [65, 95]. */
  lemma MappingsFromTaxonomy(tax: seq<Capability>, nodes: seq<ParsedNode>)
    ensures forall m | m in Mappings(tax, nodes) ::
      65 <= m.confidence <= 95 && exists i | 0 <= i < |tax| :: m.capability == tax[i].name && m.domain == tax[i].domain
  {
    var idx := MappingsPerNode(tax, nodes);
    var ms := Mappings(tax, nodes);
    forall k | 0 <= k < |ms|
      ensures 65 <= ms[k].confidence <= 95 && exists i | 0 <= i < |tax| :: ms[k].capability == tax[i].name && ms[k].domain == tax[i].domain
    {
      BestMatchFacts(tax, nodes[idx[k]]);
    }
  }

  /** `map_to_capabilities`. */
  method MapToCapabilities(tax: seq<Capability>, nodes: seq<ParsedNode>) returns (mappings: seq<Mapping>)
    ensures mappings == Mappings(tax, nodes)
  {
    mappings := [];
    var i := 0;
    while i < |nodes|
      invariant 0 <= i <= |nodes|
      invariant mappings == FilterMap(nodes[..i], MapNode(tax))
    {
      assert nodes[..i + 1][..i] == nodes[..i];
      var capability := FindCapability(tax, nodes[i]);
      if capability.Some? {
        mappings := mappings + [MappingOf(nodes[i], capability.value)];
      }
      i := i + 1;
    }
    assert nodes[..i] == nodes;
  }

  // ---------------------------------------------------------------------------
  // Coverage

  datatype CoverageEntry = CoverageEntry(capability: string, mappedNodes: nat, domain: string, criticality: string)

  function CapabilityOf(m: Mapping): string {
    m.capability
  }

  function DomainOf(m: Mapping): string {
    m.domain
  }

  /** `get_capability_coverage`: one entry per capability, in taxonomy order, counting the mappings naming it. */
  function CapabilityCoverage(tax: seq<Capability>, mappings: seq<Mapping>): (r: seq<CoverageEntry>)
    ensures |r| == |tax|
    ensures forall i | 0 <= i < |tax| ::
      r[i] == CoverageEntry(tax[i].name, KeyCount(mappings, CapabilityOf, tax[i].name), tax[i].domain, tax[i].criticality)
  {
    seq(|tax|, i requires 0 <= i < |tax| =>
      CoverageEntry(tax[i].name, KeyCount(mappings, CapabilityOf, tax[i].name), tax[i].domain, tax[i].criticality))
  }

  function Names(tax: seq<Capability>): (r: seq<string>)
    ensures |r| == |tax| && forall i | 0 <= i < |tax| :: r[i] == tax[i].name
  {
    seq(|tax|, i requires 0 <= i < |tax| => tax[i].name)
  }

  function MappedNodes(e: CoverageEntry): int {
    e.mappedNodes
  }

  /** Over a taxonomy's own mappings, the coverage counts add up to the number of mappings. */
  lemma CoverageSum(tax: seq<Capability>, nodes: seq<ParsedNode>)
    requires TaxonomyOk(tax)
    ensures SumOf(CapabilityCoverage(tax, Mappings(tax, nodes)), MappedNodes) == |Mappings(tax, nodes)|
  {
    var ms := Mappings(tax, nodes);
    MappingsFromTaxonomy(tax, nodes);
    KeyCountsPartition(ms, CapabilityOf, Names(tax));
    CoverageSumIsKeyCounts(tax, ms);
  }

  lemma {:induction false} CoverageSumIsKeyCounts(tax: seq<Capability>, ms: seq<Mapping>)
    ensures SumOf(CapabilityCoverage(tax, ms), MappedNodes) == SumKeyCounts(ms, CapabilityOf, Names(tax))
  {
    if tax != [] {
      var init := tax[..|tax| - 1];
      CoverageSumIsKeyCounts(init, ms);
      assert CapabilityCoverage(tax, ms)[..|tax| - 1] == CapabilityCoverage(init, ms);
      assert Names(tax)[..|tax| - 1] == Names(init);
    }
  }

  // ---------------------------------------------------------------------------
  // Ontology report

  /** One domain of the report: node labels per capability, and the domain's node count. */
  datatype DomainReport = DomainReport(capabilities: ODict<string, seq<string>>, totalNodes: nat)

  datatype OntologyReport = OntologyReport(domains: ODict<string, DomainReport>, totalMappings: nat)

  function NoDomain(): DomainReport {
    DomainReport(EmptyDict(), 0)
  }

  /** One step of `generate_ontology_report`: file the mapping's label under its domain and capability. */
  function AddMapping(o: ODict<string, DomainReport>, m: Mapping): (r: ODict<string, DomainReport>)
    ensures o.Valid() ==> r.Valid()
  {
    var dr := o.Get(m.domain, NoDomain());
    var caps := dr.capabilities.Put(m.capability, dr.capabilities.Get(m.capability, []) + [m.nodeLabel]);
    o.Put(m.domain, DomainReport(caps, dr.totalNodes + 1))
  }

  /** The `domains` dictionary after folding in the mappings one by one. */
  function Ontology(ms: seq<Mapping>): (r: ODict<string, DomainReport>)
    ensures r.Valid()
  {
    if ms == [] then EmptyDict() else AddMapping(Ontology(ms[..|ms| - 1]), ms[|ms| - 1])
  }

  function LabelOf(m: Mapping): string {
    m.nodeLabel
  }

  function Labels(ms: seq<Mapping>): (r: seq<string>)
    ensures |r| == |ms| && forall i | 0 <= i < |ms| :: r[i] == ms[i].nodeLabel
  {
    seq(|ms|, i requires 0 <= i < |ms| => ms[i].nodeLabel)
  }

  lemma LabelsAppend(ms: seq<Mapping>, m: Mapping)
    ensures Labels(ms + [m]) == Labels(ms) + [m.nodeLabel]
  {
  }

  /** The domains appear in first-occurrence order, like the keys of a count by domain. */
  lemma {:induction false} OntologyKeys(ms: seq<Mapping>)
    ensures Ontology(ms).keys == CountBy(ms, DomainOf).keys
    ensures forall d :: d in Ontology(ms).entries <==> d in CountBy(ms, DomainOf).entries
  {
    if ms != [] {
      OntologyKeys(ms[..|ms| - 1]);
    }
  }

  /** A domain's entry counts the mappings of that domain. */
  lemma {:induction false} OntologyCount(ms: seq<Mapping>, d: string)
    ensures d in Ontology(ms).entries <==> KeyCount(ms, DomainOf, d) > 0
    ensures Ontology(ms).Get(d, NoDomain()).totalNodes == KeyCount(ms, DomainOf, d)
  {
    if ms != [] {
      OntologyCount(ms[..|ms| - 1], d);
    }
  }

  /**
   * A domain's entry lists, per capability, the labels of the mappings with
   * that domain and capability, in order.
   */
  lemma {:induction false} OntologyLabels(ms: seq<Mapping>, d: string, c: string)
    ensures Ontology(ms).Get(d, NoDomain()).capabilities.Get(c, []) ==
      Labels(KeyFilter(KeyFilter(ms, DomainOf, d), CapabilityOf, c))
  {
    if ms != [] {
      var init := ms[..|ms| - 1];
      var m := ms[|ms| - 1];
      OntologyLabels(init, d, c);
      AddMappingLabels(Ontology(init), m, d, c);
      var f := KeyFilter(init, DomainOf, d);
      if m.domain == d {
        assert KeyFilter(ms, DomainOf, d) == f + [m];
        KeyFilterConcat(f, [m], CapabilityOf, c);
        if m.capability == c {
          assert KeyFilter([m], CapabilityOf, c) == [m];
          LabelsAppend(KeyFilter(f, CapabilityOf, c), m);
        } else {
          assert KeyFilter([m], CapabilityOf, c) == [];
          assert KeyFilter(f, CapabilityOf, c) + [] == KeyFilter(f, CapabilityOf, c);
        }
      } else {
        assert KeyFilter(ms, DomainOf, d) == f;
      }
    }
  }

  /** Filing one mapping appends its label to its own domain and capability and changes no other list. */
  lemma AddMappingLabels(o: ODict<string, DomainReport>, m: Mapping, d: string, c: string)
    ensures AddMapping(o, m).Get(d, NoDomain()).capabilities.Get(c, []) ==
      o.Get(d, NoDomain()).capabilities.Get(c, []) + if m.domain == d && m.capability == c then [m.nodeLabel] else []
  {
    var dr := o.Get(m.domain, NoDomain());
    var caps := dr.capabilities.Put(m.capability, dr.capabilities.Get(m.capability, []) + [m.nodeLabel]);
    o.GetPut(m.domain, DomainReport(caps, dr.totalNodes + 1), d, NoDomain());
    dr.capabilities.GetPut(m.capability, dr.capabilities.Get(m.capability, []) + [m.nodeLabel], c, []);
  }

  function TotalNodes(r: DomainReport): int {
    r.totalNodes
  }

  /** The domains' node counts add up to the number of mappings. */
  lemma OntologySum(ms: seq<Mapping>)
    ensures SumOver(Ontology(ms).keys, Ontology(ms).entries, TotalNodes) == |ms|
  {
    var o := Ontology(ms);
    var cb := CountBy(ms, DomainOf);
    OntologyKeys(ms);
    forall d | d in o.keys
      ensures d in o.entries && d in cb.entries && TotalNodes(o.entries[d]) == NatValue(cb.entries[d])
    {
      OntologyCount(ms, d);
      CountByEntry(ms, DomainOf, d);
    }
    SumOverAgree(o.keys, o.entries, cb.entries, TotalNodes, NatValue);
    CountBySum(ms, DomainOf);
  }

  function GenerateOntologyReportSpec(ms: seq<Mapping>): OntologyReport {
    OntologyReport(Ontology(ms), |ms|)
  }

  /** `generate_ontology_report`: the nested dictionary built mapping by mapping. */
  method GenerateOntologyReport(ms: seq<Mapping>) returns (report: OntologyReport)
    ensures report == GenerateOntologyReportSpec(ms)
  {
    var domains: ODict<string, DomainReport> := EmptyDict();
    var i := 0;
    while i < |ms|
      invariant 0 <= i <= |ms|
      invariant domains == Ontology(ms[..i])
    {
      assert ms[..i + 1][..i] == ms[..i];
      // A missing domain (then capability) starts out empty; the entry is then extended in place.
      var domain := ms[i].domain;
      var entry := domains.Get(domain, NoDomain());
      var cap := ms[i].capability;
      var caps := entry.capabilities.Put(cap, entry.capabilities.Get(cap, []) + [ms[i].nodeLabel]);
      domains := domains.Put(domain, DomainReport(caps, entry.totalNodes + 1));
      i := i + 1;
    }
    assert ms[..i] == ms;
    report := OntologyReport(domains, |ms|);
  }
}
