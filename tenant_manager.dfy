// Subscription tiers and per-tenant quotas, kept in an in-memory map of tenant records.

module TenantManager {
  import opened Wrappers

  /** One tenant record; `repoCount` is optional because stored records may lack it (read with default 0). */
  datatype Tenant = Tenant(id: string, name: string, tier: string, apiKeys: map<string, string>, repoCount: Option<int>)

  const FreemiumId: string := "tenant_freemium"

  /** The three records written when no tenant store exists yet. */
  function DefaultTenants(): (m: map<string, Tenant>)
    ensures m.Keys == {"tenant_freemium", "tenant_premium", "tenant_enterprise"}
    ensures forall k :: k in m ==> m[k].id == k && m[k].apiKeys == map[] && m[k].repoCount == Some(0)
    ensures m[FreemiumId].tier == "freemium"
    ensures m["tenant_premium"].tier == "premium" && m["tenant_enterprise"].tier == "enterprise"
  {
    map[
      "tenant_freemium" := Tenant("tenant_freemium", "Solo Developer (Free)", "freemium", map[], Some(0)),
      "tenant_premium" := Tenant("tenant_premium", "Startup Team (Premium)", "premium", map[], Some(0)),
      "tenant_enterprise" := Tenant("tenant_enterprise", "Global Bank (Enterprise)", "enterprise", map[], Some(0))
    ]
  }

  predicate IsTier(t: string) {
    t == "freemium" || t == "premium" || t == "enterprise"
  }

  predicate IsProvider(p: string) {
    p == "openai" || p == "anthropic"
  }

  predicate FreeFeature(f: string) {
    f == "basic_scan" || f == "dependency_graph"
  }

  predicate PremiumFeature(f: string) {
    f == "rag_context" || f == "risk_simulator" || f == "ai_remediation" || f == "cloud_llms"
  }

  predicate EnterpriseFeature(f: string) {
    f == "bfsi_domain" || f == "governance" || f == "unlimited_repos"
  }

  /** The feature gate for a tier, checked in the order free, premium, enterprise. */
  function FeatureAllowed(tier: string, feature: string): (r: bool)
    ensures FreeFeature(feature) ==> r
    ensures !FreeFeature(feature) && PremiumFeature(feature) ==> (r <==> tier == "premium" || tier == "enterprise")
    ensures !FreeFeature(feature) && !PremiumFeature(feature) && EnterpriseFeature(feature) ==> (r <==> tier == "enterprise")
    ensures !FreeFeature(feature) && !PremiumFeature(feature) && !EnterpriseFeature(feature) ==> !r
  {
    if FreeFeature(feature) then true
    else if PremiumFeature(feature) then tier == "premium" || tier == "enterprise"
    else if EnterpriseFeature(feature) then tier == "enterprise"
    else false
  }

  /** Access only grows with the tier: every freemium feature is premium, every premium feature is enterprise. */
  lemma FeatureAccessMonotone(feature: string)
    ensures FeatureAllowed("freemium", feature) ==> FeatureAllowed("premium", feature)
    ensures FeatureAllowed("premium", feature) ==> FeatureAllowed("enterprise", feature)
  {
  }

  /** A tier name that is not one of the three gets exactly the freemium features. */
  lemma UnknownTierIsFreemium(tier: string, feature: string)
    requires !IsTier(tier)
    ensures FeatureAllowed(tier, feature) == FeatureAllowed("freemium", feature)
  {
  }

  /** The stored count, treating a missing count as 0. */
  function CountOf(t: Tenant): (c: int)
    ensures t.repoCount.None? ==> c == 0
    ensures t.repoCount.Some? ==> c == t.repoCount.value
  {
    t.repoCount.GetOr(0)
  }

  /** Whether a tenant of this tier with this many repositories may add another one. */
  function RepoLimitOk(tier: string, count: int): (r: bool)
    ensures !r <==> (tier == "freemium" && count >= 1) || (tier == "premium" && count >= 10)
    ensures tier != "freemium" && tier != "premium" ==> r
  {
    if tier == "freemium" && count >= 1 then false
    else if tier == "premium" && count >= 10 then false
    else true
  }

  class Manager {
    var tenants: map<string, Tenant>

    /** Starts from the stored records, or from the three default tenants when there is no store. */
    constructor(stored: Option<map<string, Tenant>>)
      ensures stored.None? ==> tenants == DefaultTenants()
      ensures stored.Some? ==> tenants == stored.value
    {
      tenants := if stored.None? then DefaultTenants() else stored.value;
    }

    /** The tenant with this id, else the freemium record; None when neither is stored. */
    function GetTenant(tenantId: string): (r: Option<Tenant>)
      reads this
      ensures tenantId in tenants ==> r == Some(tenants[tenantId])
      ensures tenantId !in tenants && FreemiumId in tenants ==> r == Some(tenants[FreemiumId])
      ensures r.None? <==> tenantId !in tenants && FreemiumId !in tenants
    {
      if tenantId in tenants then Some(tenants[tenantId])
      else if FreemiumId in tenants then Some(tenants[FreemiumId])
      else None
    }

    /** The feature gate for the tenant's tier; None when no record (not even freemium) is found. */
    function CheckFeatureAccess(tenantId: string, feature: string): (r: Option<bool>)
      reads this
      ensures r.None? <==> GetTenant(tenantId).None?
      ensures r.Some? ==> r.value == FeatureAllowed(GetTenant(tenantId).value.tier, feature)
    {
      match GetTenant(tenantId)
      case None => None
      case Some(t) => Some(FeatureAllowed(t.tier, feature))
    }

    /** The repository quota check for the tenant; None when no record (not even freemium) is found. */
    function CheckRepoLimit(tenantId: string): (r: Option<bool>)
      reads this
      ensures r.None? <==> GetTenant(tenantId).None?
      ensures r.Some? ==> r.value == RepoLimitOk(GetTenant(tenantId).value.tier, CountOf(GetTenant(tenantId).value))
    {
      match GetTenant(tenantId)
      case None => None
      case Some(t) => Some(RepoLimitOk(t.tier, CountOf(t)))
    }

    /** Sets a known tenant's tier to one of the three tier names; anything else changes nothing. */
    method UpdateTenantTier(tenantId: string, newTier: string) returns (ok: bool)
      modifies this
      ensures ok <==> tenantId in old(tenants) && IsTier(newTier)
      ensures ok ==> tenants == old(tenants)[tenantId := old(tenants)[tenantId].(tier := newTier)]
      ensures !ok ==> tenants == old(tenants)
    {
      if tenantId in tenants && IsTier(newTier) {
        tenants := tenants[tenantId := tenants[tenantId].(tier := newTier)];
        return true;
      }
      return false;
    }

    /** Stores one provider key for a known tenant; other providers and tenants are untouched. */
    method UpdateApiKeys(tenantId: string, provider: string, apiKey: string) returns (ok: bool)
      modifies this
      ensures ok <==> tenantId in old(tenants) && IsProvider(provider)
      ensures ok ==> tenants == old(tenants)[tenantId := old(tenants)[tenantId].(apiKeys := old(tenants)[tenantId].apiKeys[provider := apiKey])]
      ensures !ok ==> tenants == old(tenants)
    {
      if tenantId in tenants && IsProvider(provider) {
        var t := tenants[tenantId];
        tenants := tenants[tenantId := t.(apiKeys := t.apiKeys[provider := apiKey])];
        return true;
      }
      return false;
    }

    /** Raises a known tenant's count by one (a missing count counts as 0); unknown ids change nothing. */
    method IncrementRepoCount(tenantId: string)
      modifies this
      ensures tenantId in old(tenants) ==>
        tenants == old(tenants)[tenantId := old(tenants)[tenantId].(repoCount := Some(CountOf(old(tenants)[tenantId]) + 1))]
      ensures tenantId !in old(tenants) ==> tenants == old(tenants)
    {
      if tenantId in tenants {
        var t := tenants[tenantId];
        tenants := tenants[tenantId := t.(repoCount := Some(CountOf(t) + 1))];
      }
    }
  }

  /** After one increment from zero a freemium tenant is at its quota, while a premium one still has room. */
  lemma QuotaAfterFirstRepo(t: Tenant)
    requires CountOf(t) == 0
    ensures t.tier == "freemium" ==> RepoLimitOk(t.tier, CountOf(t)) && !RepoLimitOk(t.tier, CountOf(t.(repoCount := Some(CountOf(t) + 1))))
    ensures t.tier == "premium" ==> RepoLimitOk(t.tier, CountOf(t.(repoCount := Some(CountOf(t) + 1))))
  {
  }
}
