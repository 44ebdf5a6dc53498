/**
 * The remediation generator (`engine/services/remediation_generator.py`):
 * each of the first ten risks becomes one prioritised suggestion whose
 * effort follows the risk's severity, whose category follows its type, and
 * whose day count, risk reduction and confidence are random draws from
 * fixed ranges.  The draws are modelled as arbitrary values in their range.
 */
module RemediationGenerator {
  import opened Wrappers
  import opened Strings

  /** A risk as `generate_from_risks` reads it: every key may be absent. */
  datatype Risk = Risk(
    severity: Option<string>, riskType: Option<string>, nodeId: Option<string>,
    labelText: Option<string>, description: Option<string>, recommendation: Option<string>)

  /** One suggestion. */
  datatype Suggestion = Suggestion(
    id: string, title: string, category: string, confidence: int, riskReduction: int,
    effort: string, effortDays: int, description: string, affectedFiles: seq<string>,
    pattern: string, priority: nat)

  /** Only the first ten risks are turned into suggestions. */
  const MaxSuggestions: nat := 10

  function Severity(r: Risk): string {
    r.severity.GetOr("medium")
  }

  function RiskType(r: Risk): string {
    r.riskType.GetOr("General")
  }

  function NodeId(r: Risk): string {
    r.nodeId.GetOr("unknown")
  }

  /** Effort grows with severity. */
  function Effort(severity: string): string {
    if severity == "critical" then "high" else if severity == "high" then "medium" else "low"
  }

  /** Critical risks take high effort, high risks medium, all others (a missing severity too) low. */
  lemma EffortBySeverity(r: Risk)
    ensures Effort(Severity(r)) == "high" <==> Severity(r) == "critical"
    ensures Effort(Severity(r)) == "medium" <==> Severity(r) == "high"
    ensures Effort(Severity(r)) == "low" <==> Severity(r) != "critical" && Severity(r) != "high"
    ensures r.severity.None? ==> Effort(Severity(r)) == "low"
  {
  }

  /** The inclusive range of `effortDays` for an effort level. */
  function DaysRange(effort: string): (int, int) {
    if effort == "high" then (10, 30) else if effort == "medium" then (4, 10) else (1, 4)
  }

  /** The inclusive range of `riskReduction` for a severity. */
  function ReductionRange(severity: string): (int, int) {
    if severity == "critical" then (25, 45) else (10, 25)
  }

  /** The inclusive range of `confidence`. */
  const ConfidenceRange: (int, int) := (80, 99)

  predicate InRange(x: int, range: (int, int)) {
    range.0 <= x <= range.1
  }

  /** The category named by the first of Security, Performance, Coupling/Architecture, Compliance in the type. */
  function Category(riskType: string): (c: string)
    ensures c in {"security", "performance", "architecture", "compliance", "refactoring"}
    ensures Contains(riskType, "Security") ==> c == "security"
  {
    if Contains(riskType, "Security") then "security"
    else if Contains(riskType, "Performance") then "performance"
    else if Contains(riskType, "Coupling") || Contains(riskType, "Architecture") then "architecture"
    else if Contains(riskType, "Compliance") then "compliance"
    else "refactoring"
  }

  /** The category precedence: each category is chosen exactly when no earlier rule applies and its own does. */
  lemma CategoryPrecedence(t: string)
    ensures Category(t) == "security" <==> Contains(t, "Security")
    ensures Category(t) == "performance" <==> !Contains(t, "Security") && Contains(t, "Performance")
    ensures Category(t) == "architecture" <==>
      !Contains(t, "Security") && !Contains(t, "Performance") && (Contains(t, "Coupling") || Contains(t, "Architecture"))
    ensures Category(t) == "compliance" <==>
      !Contains(t, "Security") && !Contains(t, "Performance") && !Contains(t, "Coupling")
      && !Contains(t, "Architecture") && Contains(t, "Compliance")
    ensures Category(t) == "refactoring" <==>
      !Contains(t, "Security") && !Contains(t, "Performance") && !Contains(t, "Coupling")
      && !Contains(t, "Architecture") && !Contains(t, "Compliance")
  {
    assert "security"[0] == 's' && "performance"[0] == 'p' && "architecture"[0] == 'a';
    assert "compliance"[0] == 'c' && "refactoring"[0] == 'r';
  }

  /** `node_id.split('/')[-1] if '/' in node_id else node_id`. */
  function AffectedFile(nodeId: string): string {
    if '/' in nodeId then LastSegment(nodeId, '/') else nodeId
  }

  /** The guard is redundant: the affected file is always the last "/"-segment, a suffix free of "/". */
  lemma AffectedFileIsLastSegment(nodeId: string)
    ensures AffectedFile(nodeId) == LastSegment(nodeId, '/')
    ensures EndsWith(nodeId, AffectedFile(nodeId)) && '/' !in AffectedFile(nodeId)
  {
    var r := LastSegment(nodeId, '/');
    if '/' !in nodeId {
      assert |r| == |nodeId|;
      assert r == nodeId[0..];
    }
  }

  /** `recommendation.split('.')[0]`, with "General Refactoring" when the recommendation is absent. */
  function Pattern(r: Risk): (p: string)
    ensures StartsWith(r.recommendation.GetOr("General Refactoring"), p) && '.' !in p
  {
    FirstSegment(r.recommendation.GetOr("General Refactoring"), '.')
  }

  /** The id of the suggestion at position `idx`. */
  function SuggestionId(idx: nat, nodeId: string): string {
    "rem-" + NatToString(idx + 1) + "-" + nodeId
  }

  /** Suggestion ids determine their position and node: two suggestions never share an id. */
  lemma SuggestionIdInjective(i: nat, a: string, j: nat, b: string)
    ensures SuggestionId(i, a) == SuggestionId(j, b) ==> i == j && a == b
  {
    if SuggestionId(i, a) == SuggestionId(j, b) {
      NumberedInjective("rem-", i + 1, a, j + 1, b);
    }
  }

  function SuggestionTitle(r: Risk): string {
    "Refactor / Secure " + r.labelText.GetOr("Component")
  }

  function SuggestionDescription(r: Risk): string {
    r.description.GetOr("") + " \n" + r.recommendation.GetOr("Address identified technical debt.")
  }

  /** `s` is a suggestion the generator may produce for risk `r` at position `idx`. */
  predicate Derived(r: Risk, idx: nat, s: Suggestion) {
    var effort := Effort(Severity(r));
    s.id == SuggestionId(idx, NodeId(r)) && s.title == SuggestionTitle(r)
    && s.category == Category(RiskType(r)) && InRange(s.confidence, ConfidenceRange)
    && InRange(s.riskReduction, ReductionRange(Severity(r)))
    && s.effort == effort && InRange(s.effortDays, DaysRange(effort))
    && s.description == SuggestionDescription(r) && s.affectedFiles == [AffectedFile(NodeId(r))]
    && s.pattern == Pattern(r) && s.priority == idx + 1
  }

  /** Critical risks promise at least 25 points of reduction for at least 10 days; others at most 25 points in at most 10 days. */
  lemma DerivedBounds(r: Risk, idx: nat, s: Suggestion)
    requires Derived(r, idx, s)
    ensures Severity(r) == "critical" ==> 25 <= s.riskReduction <= 45 && 10 <= s.effortDays <= 30
    ensures Severity(r) != "critical" ==> 10 <= s.riskReduction <= 25 && 1 <= s.effortDays <= 10
  {
  }

  /** The suggestions of one run have distinct ids and priorities 1, 2, ... in order. */
  lemma SuggestionsDistinct(risks: seq<Risk>, suggestions: seq<Suggestion>)
    requires |suggestions| <= |risks|
    requires forall i | 0 <= i < |suggestions| :: Derived(risks[i], i, suggestions[i])
    ensures forall i, j | 0 <= i < j < |suggestions| :: suggestions[i].id != suggestions[j].id
    ensures forall i | 0 <= i < |suggestions| :: suggestions[i].priority == i + 1
  {
    forall i, j | 0 <= i < j < |suggestions|
      ensures suggestions[i].id != suggestions[j].id
    {
      SuggestionIdInjective(i, NodeId(risks[i]), j, NodeId(risks[j]));
    }
  }

  /** The category reassignment of `generate_from_risks`: start at refactoring, take the first rule that applies. */
  method ChooseCategory(riskType: string) returns (category: string)
    ensures category == Category(riskType)
  {
    category := "refactoring";
    if Contains(riskType, "Security") {
      category := "security";
    } else if Contains(riskType, "Performance") {
      category := "performance";
    } else if Contains(riskType, "Coupling") || Contains(riskType, "Architecture") {
      category := "architecture";
    } else if Contains(riskType, "Compliance") {
      category := "compliance";
    }
  }

  /** The body of the loop of `generate_from_risks`: the suggestion for the risk at position `idx`. */
  method Suggest(risk: Risk, idx: nat) returns (sug: Suggestion)
    ensures Derived(risk, idx, sug)
  {
    var severity := risk.severity.GetOr("medium");
    var nodeId := risk.nodeId.GetOr("unknown");
    var effort := if severity == "critical" then "high" else if severity == "high" then "medium" else "low";
    var days := DaysRange(effort);
    var effortDays :| days.0 <= effortDays <= days.1;
    var reductions := ReductionRange(severity);
    var reduction :| reductions.0 <= reduction <= reductions.1;
    var category := ChooseCategory(risk.riskType.GetOr("General"));
    var confidence :| ConfidenceRange.0 <= confidence <= ConfidenceRange.1;
    sug := Suggestion(
      "rem-" + NatToString(idx + 1) + "-" + nodeId,
      "Refactor / Secure " + risk.labelText.GetOr("Component"),
      category, confidence, reduction, effort, effortDays,
      risk.description.GetOr("") + " \n" + risk.recommendation.GetOr("Address identified technical debt."),
      [if '/' in nodeId then LastSegment(nodeId, '/') else nodeId],
      FirstSegment(risk.recommendation.GetOr("General Refactoring"), '.'),
      idx + 1);
  }

  /** `generate_from_risks`: one suggestion for each of the first ten risks, in order. */
  method GenerateFromRisks(risks: seq<Risk>) returns (suggestions: seq<Suggestion>)
    ensures |suggestions| == if |risks| < MaxSuggestions then |risks| else MaxSuggestions
    ensures forall i | 0 <= i < |suggestions| :: Derived(risks[i], i, suggestions[i])
  {
    var top := if |risks| < MaxSuggestions then risks else risks[..MaxSuggestions];
    suggestions := [];
    var idx := 0;
    while idx < |top|
      invariant 0 <= idx <= |top|
      invariant |suggestions| == idx
      invariant forall i | 0 <= i < idx :: Derived(risks[i], i, suggestions[i])
    {
      var sug := Suggest(top[idx], idx);
      suggestions := suggestions + [sug];
      idx := idx + 1;
    }
  }
}
