/**
 * The BFSI analyzer (`engine/services/bfsi_analyzer.py`): a node whose
 * lower-cased label contains a keyword of one of five regulated banking
 * domains, and whose risk is critical or high, yields one impact record for
 * the first such domain.
 */
module BfsiAnalyzer {
  import opened Wrappers
  import opened Strings
  import opened Collections
  import opened DomainRules

  /** The keyword dictionary, in its insertion order. */
  const Keywords: Table := [
    ("payment", ["pay", "transaction", "settle", "checkout", "route", "card"]),
    ("aml", ["screen", "sanction", "kyc", "alert", "watchlist", "money"]),
    ("trade", ["trade", "order", "match", "book", "execution", "derivatives"]),
    ("ledger", ["ledger", "account", "post", "entry", "balance", "credit", "debit"]),
    ("reporting", ["report", "regulatory", "basel", "lcr", "audit", "nsfr"])
  ]

  /** One impact record. */
  datatype Impact = Impact(
    id: string, nodeId: string, domain: string, impactType: string, severity: string, description: string)

  /** `_get_bfsi_risk_description`: domain-specific text, or the generic one, around the quoted node name. */
  function Description(domain: string, nodeName: string, risk: string): string {
    Before(domain) + Quoted(nodeName) + After(domain, risk)
  }

  function Quoted(nodeName: string): string {
    "'" + nodeName + "'"
  }

  const PaymentLead := "Potential loss of payment routing integrity in "
  const PaymentRiskLead := ". A "
  const PaymentTail := " risk here could disrupt daily settlements or leak PII."
  const AmlLead := "Compliance vulnerability found in "
  const AmlTail := ". Affects real-time AML screening or sanctions list validation."
  const LedgerLead := "Ledger consistency at risk due to "
  const LedgerRiskLead := ". "
  const LedgerTail := " vulnerability could lead to out-of-balance transaction postings."
  const ReportingLead := "Regulatory exposure: Failure in "
  const ReportingTail := " could breach Basel reporting SLAs, resulting in substantial fines."

  /** The text before the quoted node name. */
  function Before(domain: string): string {
    if domain == "payment" then PaymentLead
    else if domain == "aml" then AmlLead
    else if domain == "ledger" then LedgerLead
    else if domain == "reporting" then ReportingLead
    else GenericLead(domain)
  }

  function GenericLead(domain: string): string {
    "Operational risk within the '" + domain + "' domain caused by high complexity or tight coupling in "
  }

  /** The text after the quoted node name. */
  function After(domain: string, risk: string): string {
    if domain == "payment" then PaymentRiskLead + risk + PaymentTail
    else if domain == "aml" then AmlTail
    else if domain == "ledger" then LedgerRiskLead + Capitalize(risk) + LedgerTail
    else if domain == "reporting" then ReportingTail
    else "."
  }

  /** The fallback text for a domain with no text of its own. */
  function GenericDescription(domain: string, nodeName: string): string {
    GenericLead(domain) + Quoted(nodeName) + "."
  }

  /** Every description quotes the node's name between single quotes. */
  lemma DescriptionQuotesName(domain: string, nodeName: string, risk: string)
    ensures Contains(Description(domain, nodeName, risk), Quoted(nodeName))
  {
    ContainsMiddle(Before(domain), Quoted(nodeName), After(domain, risk));
  }

  /** Payment and ledger texts name the risk level, the ledger one capitalized. */
  lemma DescriptionNamesRisk(nodeName: string, risk: string)
    ensures Contains(Description("payment", nodeName, risk), risk)
    ensures Contains(Description("ledger", nodeName, risk), Capitalize(risk))
  {
    ContainsInner(PaymentLead + Quoted(nodeName), PaymentRiskLead, risk, PaymentTail);
    ContainsInner(LedgerLead + Quoted(nodeName), LedgerRiskLead, Capitalize(risk), LedgerTail);
  }

  /** The trade domain has no text of its own and falls back to the generic one. */
  lemma TradeUsesGenericDescription(nodeName: string, risk: string)
    ensures Description("trade", nodeName, risk) == GenericDescription("trade", nodeName)
  {
    assert |"trade"| == 5;
  }

  /** The text searched for keywords: the lower-cased label, empty when absent. */
  function SearchName(n: Node): string {
    Lower(n.labelText.GetOr(""))
  }

  /** The risk level read from the node, `low` when absent. */
  function RiskLevel(n: Node): string {
    n.risk.GetOr("low")
  }

  /** The record for a node whose matched domain is `d`. */
  function ImpactFor(n: Node, d: string): Impact {
    Impact("bfsi-" + n.id, n.id, Capitalize(d), Capitalize(d) + " Integrity Risk", RiskLevel(n),
      Description(d, SearchName(n), RiskLevel(n)))
  }

  /** The record a node yields, if any: only a critical or high node yields one, under its own id. */
  function ImpactOf(n: Node): (r: Option<Impact>)
    ensures r.Some? ==> r.value.nodeId == n.id && Reported(r.value.severity)
  {
    match FirstMatch(Keywords, [SearchName(n)])
    case None => None
    case Some(d) => if Reported(RiskLevel(n)) then Some(ImpactFor(n, d)) else None
  }

  function ImpactFn(): Node -> Option<Impact> {
    (n: Node) => ImpactOf(n)
  }

  /**
   * A node yields a record exactly when some domain has a keyword in its
   * lower-cased label and its risk is critical or high.
   */
  lemma ImpactOfWhen(n: Node)
    ensures ImpactOf(n).Some? <==>
      (exists i | 0 <= i < |Keywords| :: Hits(Keywords[i].1, [SearchName(n)])) && Reported(RiskLevel(n))
  {
    FirstMatchNone(Keywords, [SearchName(n)]);
  }

  /** The record a node yields carries its id and severity and the first matching domain. */
  lemma ImpactOfFacts(n: Node)
    ensures ImpactOf(n).Some? ==>
      var r := ImpactOf(n).value;
      r.id == "bfsi-" + n.id && r.nodeId == n.id && r.severity == RiskLevel(n) && Reported(r.severity)
      && r.impactType == r.domain + " Integrity Risk"
      && exists i | 0 <= i < |Keywords| ::
           r.domain == Capitalize(Keywords[i].0) && Hits(Keywords[i].1, [SearchName(n)])
           && forall j | 0 <= j < i :: !Hits(Keywords[j].1, [SearchName(n)])
  {
    if ImpactOf(n).Some? {
      var i := FirstMatchFound(Keywords, [SearchName(n)]);
    }
  }

  /** A node without a risk level is never reported, whatever its label. */
  lemma NoRiskNoImpact(n: Node)
    requires n.risk.None?
    ensures ImpactOf(n).None?
  {
  }

  /** A node without a label matches no domain. */
  lemma NoLabelNoImpact(n: Node)
    requires n.labelText.None?
    ensures ImpactOf(n).None?
  {
    EmptyTextsNoMatch(Keywords, [SearchName(n)]);
  }

  /** A label hitting both payment and reporting keywords is filed under payment, the earlier domain. */
  lemma PaymentBeforeReporting(id: string)
    ensures ImpactOf(Node(id, Some("payAudit"), None, Some("high"))).Some?
    ensures ImpactOf(Node(id, Some("payAudit"), None, Some("high"))).value.domain == "Payment"
  {
    var n := Node(id, Some("payAudit"), None, Some("high"));
    var name := SearchName(n);
    assert name == "payaudit";
    assert OccursAt(name, "pay", 0);
    assert Hits(Keywords[0].1, [name]) by {
      assert Contains([name][0], Keywords[0].1[0]);
    }
    FirstMatchAt(Keywords, [name], 0);
  }

  /** The records of `analyze_domain`. */
  function Impacts(nodes: seq<Node>): seq<Impact> {
    FilterMap(nodes, ImpactFn())
  }

  /**
   * At most one record per node, in node order: the k-th record belongs to
   * node `idx[k]`, the indices increase, and every node yielding a record
   * is among them.
   */
  lemma ImpactsPerNode(nodes: seq<Node>) returns (idx: seq<nat>)
    ensures |idx| == |Impacts(nodes)| <= |nodes|
    ensures forall k | 0 <= k < |idx| ::
      idx[k] < |nodes| && Some(Impacts(nodes)[k]) == ImpactOf(nodes[idx[k]])
      && Impacts(nodes)[k].nodeId == nodes[idx[k]].id
    ensures forall k, l | 0 <= k < l < |idx| :: idx[k] < idx[l]
    ensures forall i | 0 <= i < |nodes| :: ImpactOf(nodes[i]).Some? ==> i in idx
  {
    idx := FilterMapIndices(nodes, ImpactFn());
    forall k | 0 <= k < |idx|
      ensures Impacts(nodes)[k].nodeId == nodes[idx[k]].id
    {
      ImpactOfFacts(nodes[idx[k]]);
    }
  }

  /** The body of the node loop of `analyze_domain`: the record one node yields. */
  method AnalyzeNode(n: Node) returns (r: Option<Impact>)
    ensures r == ImpactOf(n)
  {
    var name := Lower(n.labelText.GetOr(""));
    var riskLevel := n.risk.GetOr("low");
    var matched := MatchDomain(Keywords, [name]);
    if matched.Some? && Reported(riskLevel) {
      var desc := Description(matched.value, name, riskLevel);
      r := Some(Impact("bfsi-" + n.id, n.id, Capitalize(matched.value),
        Capitalize(matched.value) + " Integrity Risk", riskLevel, desc));
    } else {
      r := None;
    }
  }

  /** `analyze_domain`: scan the nodes, match each against the domains, keep the reported ones. */
  method AnalyzeDomain(nodes: seq<Node>) returns (impacts: seq<Impact>)
    ensures impacts == Impacts(nodes)
  {
    impacts := [];
    var i := 0;
    while i < |nodes|
      invariant 0 <= i <= |nodes|
      invariant impacts == FilterMap(nodes[..i], ImpactFn())
    {
      TakeSnoc(nodes, i);
      FilterMapSnoc(nodes[..i], nodes[i], ImpactFn());
      var r := AnalyzeNode(nodes[i]);
      if r.Some? {
        impacts := impacts + [r.value];
      }
      i := i + 1;
    }
    assert nodes[..i] == nodes;
  }
}
