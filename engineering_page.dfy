/**
 * The engineering insights page of the dashboard
 * (`src/app/dashboard/engineering/page.tsx`): the engineering risks of the
 * last scan (or two built-in examples when no scan is held), grouped by
 * their domain, with the total and the number of domains affected.
 */
module EngineeringPage {
  import opened Wrappers
  import opened Strings
  import opened Collections

  /** A risk as the page reads it; a missing id or domain is the empty text. */
  datatype EngineeringRisk = EngineeringRisk(
    id: string, nodeId: string, domain: string, impactType: string, severity: string, description: string)

  /** The four engineering domains. */
  const EngineeringDomains: seq<string> := ["Database Schema", "Ci Cd", "Infrastructure", "Auth Security"]

  /** The examples shown without a scan. */
  const Fallback: seq<EngineeringRisk> := [
    EngineeringRisk("eng-1", "db-migration", "Database Schema", "Database Schema Configuration Risk", "critical",
      "Database Schema risk: Unsafe migration or ORM access in 'V2__Add_Customer_Table' could result in data loss or locking."),
    EngineeringRisk("eng-2", "ci-pipeline", "Ci Cd", "Ci Cd Configuration Risk", "high",
      "Pipeline vulnerability in '.github/workflows/deploy.yml'. A high risk in deployment config may expose secrets or halt the CI/CD flow.")
  ]

  /** A scan risk is an engineering risk by its "eng-" id or by its domain. */
  predicate IsEngineering(r: EngineeringRisk) {
    StartsWith(r.id, "eng-") || (r.domain != "" && r.domain in EngineeringDomains)
  }

  /**
   * The page's list.  `scanRisks` is the scan's risk list when a scan is
   * held (a scan without one reads as an empty list), `None` without a scan.
   */
  function EngineeringRisks(scanRisks: Option<seq<EngineeringRisk>>): seq<EngineeringRisk> {
    match scanRisks
    case None => Fallback
    case Some(rs) => Filter(rs, IsEngineering)
  }

  /**
   * Without a scan the examples are shown; with one, exactly its engineering
   * risks, and none at all (not the examples) when it has none.
   */
  lemma EngineeringRisksFacts(scanRisks: Option<seq<EngineeringRisk>>)
    ensures scanRisks.None? ==> EngineeringRisks(scanRisks) == Fallback
    ensures scanRisks.Some? ==> forall r :: r in EngineeringRisks(scanRisks) <==> r in scanRisks.value && IsEngineering(r)
    ensures scanRisks.Some? && (forall r | r in scanRisks.value :: !IsEngineering(r)) ==> EngineeringRisks(scanRisks) == []
  {
    if scanRisks.Some? && forall r | r in scanRisks.value :: !IsEngineering(r) {
      FilterNone(scanRisks.value, IsEngineering);
    }
  }

  /** The group a risk goes under: its domain, or "Other" without one. */
  function GroupKey(r: EngineeringRisk): string {
    if r.domain == "" then "Other" else r.domain
  }

  /** `domainGroups`. */
  function DomainGroups(risks: seq<EngineeringRisk>): ODict<string, seq<EngineeringRisk>> {
    GroupBy(risks, GroupKey)
  }

  /** The `reduce` that builds `domainGroups`: each risk is pushed onto its group, a new group going last. */
  method GroupRisks(risks: seq<EngineeringRisk>) returns (groups: ODict<string, seq<EngineeringRisk>>)
    ensures groups == DomainGroups(risks)
  {
    groups := EmptyDict();
    var i := 0;
    while i < |risks|
      invariant 0 <= i <= |risks|
      invariant groups == GroupBy(risks[..i], GroupKey)
    {
      var d := GroupKey(risks[i]);
      assert risks[..i + 1][..i] == risks[..i];
      groups := groups.Put(d, groups.Get(d, []) + [risks[i]]);
      i := i + 1;
    }
    assert risks[..i] == risks;
  }

  /**
   * Each group holds exactly the risks of its key, in list order; a key has
   * a group exactly when some risk carries it; the groups appear in the
   * order in which their keys first occur; their sizes add up to the list's
   * length.
   */
  lemma DomainGroupsFacts(risks: seq<EngineeringRisk>)
    ensures DomainGroups(risks).Valid()
    ensures forall k :: DomainGroups(risks).Get(k, []) == KeyFilter(risks, GroupKey, k)
    ensures forall k :: k in DomainGroups(risks).entries <==> exists i | 0 <= i < |risks| :: GroupKey(risks[i]) == k
    ensures DomainGroups(risks).keys == Distinct(Project(risks, GroupKey))
    ensures SumOver(DomainGroups(risks).keys, DomainGroups(risks).entries, SizeOf<EngineeringRisk>) == |risks|
  {
    GroupByValid(risks, GroupKey);
    GroupBySum(risks, GroupKey);
    GroupByProjectKeys(risks, GroupKey);
    GroupByHas(risks, GroupKey);
    forall k
      ensures DomainGroups(risks).Get(k, []) == KeyFilter(risks, GroupKey, k)
    {
      GroupByEntry(risks, GroupKey, k);
    }
  }

  /** The "Total Domain Risks" figure. */
  function TotalRisks(risks: seq<EngineeringRisk>): nat {
    |risks|
  }

  /** The "Affected Categories" figure. */
  function AffectedCategories(risks: seq<EngineeringRisk>): nat {
    |DomainGroups(risks).keys|
  }

  /** There are never more categories than risks, and there is one exactly when the list is not empty. */
  lemma CountsFacts(risks: seq<EngineeringRisk>)
    ensures AffectedCategories(risks) <= TotalRisks(risks)
    ensures AffectedCategories(risks) == 0 <==> risks == []
  {
    DomainGroupsFacts(risks);
    DistinctLength(Project(risks, GroupKey));
    if risks != [] {
      assert GroupKey(risks[0]) in Distinct(Project(risks, GroupKey));
    }
  }
}
