/**
 * The engineering analyzer (`engine/services/engineering_analyzer.py`): a
 * node whose lower-cased file path or label contains a keyword of one of
 * four DevOps/architecture domains, and whose risk is critical or high,
 * yields one configuration-risk record for the first such domain.
 */
module EngineeringAnalyzer {
  import opened Wrappers
  import opened Strings
  import opened Collections
  import opened DomainRules

  /** The keyword dictionary, in its insertion order. */
  const Keywords: Table := [
    ("ci_cd", ["pipeline", "github/workflows", "jenkins", "gitlab-ci", "circleci", "action", "deploy", "build"]),
    ("infrastructure", ["terraform", "docker", "kubernetes", "helm", "ansible", "cloudformation"]),
    ("auth_security", ["jwt", "oauth", "middleware", "passport", "auth", "cors", "csrf"]),
    ("database_schema", ["migration", "prisma", "schema", "sequelize", "typeorm", "alembic"])
  ]

  /** One impact record. */
  datatype Impact = Impact(
    id: string, nodeId: string, domain: string, impactType: string, severity: string, description: string)

  /** `domain.replace('_', ' ').title()`: the name shown for a domain. */
  function DisplayName(domain: string): string {
    Title(ReplaceChar(domain, '_', ' '))
  }

  /** The shown name of `ci_cd`. */
  lemma CiCdDisplayName()
    ensures DisplayName("ci_cd") == "Ci Cd"
  {
    assert ReplaceChar("ci_cd", '_', ' ') == ['c'] + "i" + [' '] + ['c'] + "d";
    TitleTwoWords('c', "i", 'c', "d");
  }

  /** The shown name of `auth_security`. */
  lemma AuthSecurityDisplayName()
    ensures DisplayName("auth_security") == "Auth Security"
  {
    assert ReplaceChar("auth_security", '_', ' ') == ['a'] + "uth" + [' '] + ['s'] + "ecurity";
    TitleTwoWords('a', "uth", 's', "ecurity");
  }

  /** The domains with a text of their own. */
  predicate HasOwnText(domain: string) {
    domain == "ci_cd" || domain == "infrastructure" || domain == "auth_security" || domain == "database_schema"
  }

  const CiCdLead := "Pipeline vulnerability in "
  const CiCdRiskLead := ". A "
  const CiCdTail := " risk in deployment config may expose secrets or halt the CI/CD flow."
  const InfrastructureLead := "Infrastructure drift detected in "
  const InfrastructureTail := ". Affects environment stability and IAC configurations."
  const AuthLead := "Security middleware exposure in "
  const AuthRiskLead := ". "
  const AuthTail := " vulnerabilities here directly impact session or token validation."
  const SchemaLead := "Database Schema risk: Unsafe migration or ORM access in "
  const SchemaTail := " could result in data loss or locking."

  function Quoted(nodeName: string): string {
    "'" + nodeName + "'"
  }

  /** The text before the quoted node name. */
  function Before(domain: string): string
    requires HasOwnText(domain)
  {
    if domain == "ci_cd" then CiCdLead
    else if domain == "infrastructure" then InfrastructureLead
    else if domain == "auth_security" then AuthLead
    else SchemaLead
  }

  /** The text after the quoted node name. */
  function After(domain: string, risk: string): string
    requires HasOwnText(domain)
  {
    if domain == "ci_cd" then CiCdRiskLead + risk + CiCdTail
    else if domain == "infrastructure" then InfrastructureTail
    else if domain == "auth_security" then AuthRiskLead + Capitalize(risk) + AuthTail
    else SchemaTail
  }

  /** The fallback text, which names the domain but not the node. */
  function GenericDescription(domain: string): string {
    "Architectural drift within '" + domain + "' domain caused by high complexity."
  }

  /** `_get_engineering_risk_description`. */
  function Description(domain: string, nodeName: string, risk: string): string {
    if HasOwnText(domain) then Before(domain) + Quoted(nodeName) + After(domain, risk)
    else GenericDescription(domain)
  }

  /** Every domain of the table has a text of its own, so the fallback is never used by the analyzer. */
  lemma TableDomainsHaveOwnText(i: nat)
    requires i < |Keywords|
    ensures HasOwnText(Keywords[i].0)
  {
  }

  /** A domain with its own text quotes the node name; ci_cd and auth_security also name the risk. */
  lemma DescriptionQuotesName(domain: string, nodeName: string, risk: string)
    requires HasOwnText(domain)
    ensures Contains(Description(domain, nodeName, risk), Quoted(nodeName))
    ensures domain == "ci_cd" ==> Contains(Description(domain, nodeName, risk), risk)
    ensures domain == "auth_security" ==> Contains(Description(domain, nodeName, risk), Capitalize(risk))
  {
    ContainsMiddle(Before(domain), Quoted(nodeName), After(domain, risk));
    if domain == "ci_cd" {
      ContainsInner(CiCdLead + Quoted(nodeName), CiCdRiskLead, risk, CiCdTail);
    } else if domain == "auth_security" {
      ContainsInner(AuthLead + Quoted(nodeName), AuthRiskLead, Capitalize(risk), AuthTail);
    }
  }

  /** The lower-cased label, empty when absent; it is also the name the description quotes. */
  function LabelText(n: Node): string {
    Lower(n.labelText.GetOr(""))
  }

  /** The lower-cased file path, empty when absent. */
  function FilePath(n: Node): string {
    Lower(n.file.GetOr(""))
  }

  /** The risk level read from the node, `low` when absent. */
  function RiskLevel(n: Node): string {
    n.risk.GetOr("low")
  }

  /** The texts a keyword may occur in: the file path, then the label. */
  function Texts(n: Node): seq<string> {
    [FilePath(n), LabelText(n)]
  }

  /** The record for a node whose matched domain is `d`. */
  function ImpactFor(n: Node, d: string): Impact {
    Impact("eng-" + n.id, n.id, DisplayName(d), DisplayName(d) + " Configuration Risk", RiskLevel(n),
      Description(d, LabelText(n), RiskLevel(n)))
  }

  /** The record a node yields, if any: only a critical or high node yields one, under its own id. */
  function ImpactOf(n: Node): (r: Option<Impact>)
    ensures r.Some? ==> r.value.nodeId == n.id && Reported(r.value.severity)
  {
    match FirstMatch(Keywords, Texts(n))
    case None => None
    case Some(d) => if Reported(RiskLevel(n)) then Some(ImpactFor(n, d)) else None
  }

  function ImpactFn(): Node -> Option<Impact> {
    (n: Node) => ImpactOf(n)
  }

  /**
   * A node yields a record exactly when some domain has a keyword in its
   * lower-cased file path or label and its risk is critical or high.
   */
  lemma ImpactOfWhen(n: Node)
    ensures ImpactOf(n).Some? <==>
      (exists i | 0 <= i < |Keywords| :: Hits(Keywords[i].1, Texts(n))) && Reported(RiskLevel(n))
  {
    FirstMatchNone(Keywords, Texts(n));
  }

  /** The record a node yields carries its id and severity and the first matching domain. */
  lemma ImpactOfFacts(n: Node)
    ensures ImpactOf(n).Some? ==>
      var r := ImpactOf(n).value;
      r.id == "eng-" + n.id && r.nodeId == n.id && r.severity == RiskLevel(n) && Reported(r.severity)
      && r.impactType == r.domain + " Configuration Risk"
      && Contains(r.description, Quoted(LabelText(n)))
      && exists i | 0 <= i < |Keywords| ::
           r.domain == DisplayName(Keywords[i].0) && Hits(Keywords[i].1, Texts(n))
           && forall j | 0 <= j < i :: !Hits(Keywords[j].1, Texts(n))
  {
    if ImpactOf(n).Some? {
      var i := FirstMatchFound(Keywords, Texts(n));
      var d := Keywords[i].0;
      assert ImpactOf(n).value == ImpactFor(n, d);
      TableDomainsHaveOwnText(i);
      DescriptionQuotesName(d, LabelText(n), RiskLevel(n));
    }
  }

  /** A keyword in the file path alone is enough: a Jenkinsfile is a ci_cd risk whatever its label. */
  lemma JenkinsfileIsCiCd(id: string, labelText: Option<string>)
    ensures ImpactOf(Node(id, labelText, Some("Jenkinsfile"), Some("critical"))).Some?
    ensures ImpactOf(Node(id, labelText, Some("Jenkinsfile"), Some("critical"))).value.domain
      == DisplayName("ci_cd")
  {
    var n := Node(id, labelText, Some("Jenkinsfile"), Some("critical"));
    var path := FilePath(n);
    assert path == "jenkinsfile";
    assert OccursAt(path, "jenkins", 0);
    assert Hits(Keywords[0].1, Texts(n)) by {
      assert Contains(Texts(n)[0], Keywords[0].1[2]);
    }
    FirstMatchAt(Keywords, Texts(n), 0);
  }

  /** A node with neither label nor file matches no domain. */
  lemma NoTextNoImpact(n: Node)
    requires n.labelText.None? && n.file.None?
    ensures ImpactOf(n).None?
  {
    EmptyTextsNoMatch(Keywords, Texts(n));
  }

  /** A node without a risk level is never reported. */
  lemma NoRiskNoImpact(n: Node)
    requires n.risk.None?
    ensures ImpactOf(n).None?
  {
  }

  /** The records of `analyze_domain`. */
  function Impacts(nodes: seq<Node>): seq<Impact> {
    FilterMap(nodes, ImpactFn())
  }

  /**
   * At most one record per node, in node order: the k-th record belongs to
   * node `idx[k]`, the indices increase, and every node yielding a record
   * is among them.
   */
  lemma ImpactsPerNode(nodes: seq<Node>) returns (idx: seq<nat>)
    ensures |idx| == |Impacts(nodes)| <= |nodes|
    ensures forall k | 0 <= k < |idx| ::
      idx[k] < |nodes| && Some(Impacts(nodes)[k]) == ImpactOf(nodes[idx[k]])
      && Impacts(nodes)[k].nodeId == nodes[idx[k]].id
    ensures forall k, l | 0 <= k < l < |idx| :: idx[k] < idx[l]
    ensures forall i | 0 <= i < |nodes| :: ImpactOf(nodes[i]).Some? ==> i in idx
  {
    idx := FilterMapIndices(nodes, ImpactFn());
    forall k | 0 <= k < |idx|
      ensures Impacts(nodes)[k].nodeId == nodes[idx[k]].id
    {
      ImpactOfFacts(nodes[idx[k]]);
    }
  }

  /** The body of the node loop of `analyze_domain`: the record one node yields. */
  method AnalyzeNode(n: Node) returns (r: Option<Impact>)
    ensures r == ImpactOf(n)
  {
    var labelLower := Lower(n.labelText.GetOr(""));
    var filepath := Lower(n.file.GetOr(""));
    var riskLevel := n.risk.GetOr("low");
    var matched := MatchDomain(Keywords, [filepath, labelLower]);
    if matched.Some? && Reported(riskLevel) {
      var desc := Description(matched.value, labelLower, riskLevel);
      var shown := DisplayName(matched.value);
      r := Some(Impact("eng-" + n.id, n.id, shown,
        shown + " Configuration Risk", riskLevel, desc));
    } else {
      r := None;
    }
  }

  /** `analyze_domain`: scan the nodes, match each against the domains, keep the reported ones. */
  method AnalyzeDomain(nodes: seq<Node>) returns (impacts: seq<Impact>)
    ensures impacts == Impacts(nodes)
  {
    impacts := [];
    var i := 0;
    while i < |nodes|
      invariant 0 <= i <= |nodes|
      invariant impacts == FilterMap(nodes[..i], ImpactFn())
    {
      TakeSnoc(nodes, i);
      FilterMapSnoc(nodes[..i], nodes[i], ImpactFn());
      var r := AnalyzeNode(nodes[i]);
      if r.Some? {
        impacts := impacts + [r.value];
      }
      i := i + 1;
    }
    assert nodes[..i] == nodes;
  }
}
