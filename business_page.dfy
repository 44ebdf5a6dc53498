/**
 * The business intelligence page of the dashboard
 * (`src/app/dashboard/business/page.tsx`): the business capabilities of
 * the last scan (or the seed ones), a domain filter, and a coverage figure
 * for each domain of the banking taxonomy the page lists.
 */
module BusinessPage {
  import opened Wrappers
  import opened Collections

  /** A capability as the page reads it. */
  datatype Capability = Capability(id: string, name: string, domain: string)

  /** A domain of the taxonomy and the capabilities it lists. */
  datatype TaxonomyDomain = TaxonomyDomain(name: string, capabilities: seq<string>)

  /** A row of the coverage table. */
  datatype CoverageRow = CoverageRow(domain: string, capabilities: seq<string>, coverage: int)

  /** `BIAN_DOMAINS`. */
  const BianDomains: seq<TaxonomyDomain> := [
    TaxonomyDomain("Operations", ["Payment Processing", "Treasury Operations"]),
    TaxonomyDomain("Compliance", ["AML Compliance", "Regulatory Reporting"]),
    TaxonomyDomain("Customer Management", ["Customer Onboarding"]),
    TaxonomyDomain("Capital Markets", ["Trade Processing"]),
    TaxonomyDomain("Finance", ["Financial Accounting"]),
    TaxonomyDomain("Security", ["Access Control"])
  ]

  /** `scanData?.business_mappings || businessCapabilities`: a scan's list wins whenever it is there, even empty. */
  function CurrentCapabilities(scanMappings: Option<seq<Capability>>, seed: seq<Capability>): (r: seq<Capability>)
    ensures scanMappings.Some? ==> r == scanMappings.value
    ensures scanMappings.None? ==> r == seed
  {
    scanMappings.GetOr(seed)
  }

  function DomainOf(c: Capability): string {
    c.domain
  }

  /** The cards shown under the selected domain. */
  function FilteredCapabilities(selected: string, caps: seq<Capability>): seq<Capability> {
    if selected == "All" then caps else KeyFilter(caps, DomainOf, selected)
  }

  /** "All" shows every capability; another domain exactly those of that domain, each as often as it occurs. */
  lemma FilteredFacts(selected: string, caps: seq<Capability>)
    ensures selected == "All" ==> FilteredCapabilities(selected, caps) == caps
    ensures selected != "All" ==> forall c :: c in FilteredCapabilities(selected, caps) <==> c in caps && c.domain == selected
    ensures selected != "All" ==> forall c: Capability | c.domain == selected ::
      multiset(FilteredCapabilities(selected, caps))[c] == multiset(caps)[c]
  {
    if selected != "All" {
      KeyFilterMembers(caps, DomainOf, selected);
      forall c: Capability | c.domain == selected
        ensures multiset(FilteredCapabilities(selected, caps))[c] == multiset(caps)[c]
      {
        KeyFilterMultiplicity(caps, DomainOf, c);
      }
    }
  }

  /**
   * `Math.round(mapped / total * 100)`, or 0 for an empty domain: the
   * nearest whole percentage, halves rounded up.  The quotient is taken
   * exactly here; for the totals of one and two the taxonomy has, the
   * floating-point quotient is exact as well.
   */
  function Coverage(mapped: nat, total: nat): (r: int)
    ensures total == 0 ==> r == 0
    ensures total > 0 ==> 2 * total * r <= 200 * mapped + total < 2 * total * (r + 1)
  {
    if total > 0 then (200 * mapped + total) / (2 * total) else 0
  }

  /** The coverage row of one domain. */
  function Row(caps: seq<Capability>, d: TaxonomyDomain): CoverageRow {
    CoverageRow(d.name, d.capabilities, Coverage(KeyCount(caps, DomainOf, d.name), |d.capabilities|))
  }

  /** `activeTaxonomy`. */
  function Taxonomy(caps: seq<Capability>): seq<CoverageRow> {
    seq(|BianDomains|, i requires 0 <= i < |BianDomains| => Row(caps, BianDomains[i]))
  }

  /**
   * One row per taxonomy domain, in its order, listing that domain's
   * capabilities; the coverage is the share of the listed capabilities
   * that the current capabilities of the domain make up, as a percentage:
   * 50 per capability in a domain listing two, 100 in a domain listing one.
   */
  lemma TaxonomyFacts(caps: seq<Capability>)
    ensures |Taxonomy(caps)| == |BianDomains|
    ensures forall i | 0 <= i < |BianDomains| ::
      Taxonomy(caps)[i].domain == BianDomains[i].name && Taxonomy(caps)[i].capabilities == BianDomains[i].capabilities
    ensures forall i | 0 <= i < |BianDomains| ::
      Taxonomy(caps)[i].coverage * |BianDomains[i].capabilities| == 100 * KeyCount(caps, DomainOf, BianDomains[i].name)
  {
    forall i | 0 <= i < |BianDomains|
      ensures Taxonomy(caps)[i].coverage * |BianDomains[i].capabilities| == 100 * KeyCount(caps, DomainOf, BianDomains[i].name)
    {
      var m := KeyCount(caps, DomainOf, BianDomains[i].name);
      var t := |BianDomains[i].capabilities|;
      assert t == 1 || t == 2;
      CoverageExact(m, t);
    }
  }

  /** For a domain listing one or two capabilities the percentage is exact. */
  lemma CoverageExact(mapped: nat, total: nat)
    requires total == 1 || total == 2
    ensures Coverage(mapped, total) * total == 100 * mapped
  {
    if total == 2 {
      assert 200 * mapped + 2 == 4 * (50 * mapped) + 2;
    }
  }

  /** Coverage is not capped: three Operations capabilities against the two it lists give 150. */
  lemma CoverageNotClamped()
    ensures Taxonomy([Capability("a", "a", "Operations"), Capability("b", "b", "Operations"), Capability("c", "c", "Operations")])[0].coverage == 150
  {
    var caps := [Capability("a", "a", "Operations"), Capability("b", "b", "Operations"), Capability("c", "c", "Operations")];
    assert caps[..2][..1][..0] == [];
    assert KeyCount(caps, DomainOf, "Operations") == 3;
  }
}
