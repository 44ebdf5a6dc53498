/**
 * The risk endpoint of the dashboard's API (`src/app/api/risk/route.ts`):
 * it answers with the seed risk registry, the seed impact simulations and a
 * summary of how many registry risks there are of each severity.
 */
module RiskRoute {
  import opened Collections

  /** The severity of a seed risk: a closed set of four levels. */
  datatype Severity = Critical | High | Medium | Low

  /** A seed risk, with the fields the endpoint looks at; the rest travels with `payload`. */
  datatype RiskItem = RiskItem(id: string, severity: Severity, payload: string)

  /** The body of the answer. */
  datatype Summary = Summary(critical: nat, high: nat, medium: nat, low: nat)
  datatype Response<S> = Response(risks: seq<RiskItem>, simulations: seq<S>, summary: Summary)

  function SeverityOf(r: RiskItem): Severity {
    r.severity
  }

  /** `GET`: the registry and simulations as they are, with the severity counts. */
  function Get<S>(risks: seq<RiskItem>, simulations: seq<S>): (r: Response<S>)
    ensures r.risks == risks && r.simulations == simulations
  {
    Response(risks, simulations, Summary(
      KeyCount(risks, SeverityOf, Critical), KeyCount(risks, SeverityOf, High),
      KeyCount(risks, SeverityOf, Medium), KeyCount(risks, SeverityOf, Low)))
  }

  /** Each count is the number of registry risks of its severity, and the four add up to the registry's size. */
  lemma SummaryFacts<S>(risks: seq<RiskItem>, simulations: seq<S>)
    ensures var s := Get(risks, simulations).summary;
      && (forall v :: v in [Critical, High, Medium, Low] ==>
            |Filter(risks, (r: RiskItem) => r.severity == v)| == (match v
              case Critical => s.critical case High => s.high case Medium => s.medium case Low => s.low))
      && s.critical + s.high + s.medium + s.low == |risks|
  {
    var keys := [Critical, High, Medium, Low];
    assert NoDuplicates(keys);
    forall x | x in risks
      ensures SeverityOf(x) in keys
    {
      match x.severity
      case Critical => assert keys[0] == Critical;
      case High => assert keys[1] == High;
      case Medium => assert keys[2] == Medium;
      case Low => assert keys[3] == Low;
    }
    KeyCountsPartition(risks, SeverityOf, keys);
    assert keys[..3] == [Critical, High, Medium];
    assert keys[..3][..2] == [Critical, High];
    assert keys[..3][..2][..1] == [Critical];
    var c1 := SumKeyCounts(risks, SeverityOf, [Critical]);
    var c2 := SumKeyCounts(risks, SeverityOf, [Critical, High]);
    var c3 := SumKeyCounts(risks, SeverityOf, [Critical, High, Medium]);
    assert [Critical][..0] == [];
    assert [Critical, High][..1] == [Critical];
    assert [Critical, High, Medium][..2] == [Critical, High];
    assert SumKeyCounts(risks, SeverityOf, []) == 0;
    assert c1 == SumKeyCounts(risks, SeverityOf, []) + KeyCount(risks, SeverityOf, [Critical][0]);
    assert c1 == KeyCount(risks, SeverityOf, Critical);
    assert c2 == c1 + KeyCount(risks, SeverityOf, High);
    assert c3 == c2 + KeyCount(risks, SeverityOf, Medium);
    assert SumKeyCounts(risks, SeverityOf, keys) == c3 + KeyCount(risks, SeverityOf, Low);
    forall v | v in keys
      ensures Filter(risks, (r: RiskItem) => r.severity == v) == KeyFilter(risks, SeverityOf, v)
    {
      FilterIsKeyFilter(risks, (r: RiskItem) => r.severity == v, SeverityOf, v);
    }
  }
}
