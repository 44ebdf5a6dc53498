/**
 * The remediation page of the dashboard
 * (`src/app/dashboard/remediation/page.tsx`): the suggestions of the last
 * scan (or the seed list), a category filter, and two sets of suggestion
 * ids the user has accepted or rejected, with the risk reduction and effort
 * totalled over the accepted ones.
 */
module RemediationPage {
  import opened Wrappers
  import opened Collections

  /** The fields of a suggestion the page computes with. */
  datatype Suggestion = Suggestion(id: string, category: string, riskReduction: int, effortDays: int)

  /** `scanData?.remediations || seedRemediations`: a scan's list wins whenever it is there, even empty. */
  function Current(scanRemediations: Option<seq<Suggestion>>, seed: seq<Suggestion>): (r: seq<Suggestion>)
    ensures scanRemediations.Some? ==> r == scanRemediations.value
    ensures scanRemediations.None? ==> r == seed
  {
    scanRemediations.GetOr(seed)
  }

  function CategoryOf(s: Suggestion): string {
    s.category
  }

  /** `['all', ...new Set(categories)]`: the filter chips. */
  function Categories(list: seq<Suggestion>): seq<string> {
    ["all"] + Distinct(Project(list, CategoryOf))
  }

  /** The chips are "all" and then each category of the list once, in order of first appearance. */
  lemma CategoriesFacts(list: seq<Suggestion>)
    ensures Categories(list)[0] == "all"
    ensures forall c :: c in Categories(list)[1..] <==> exists i | 0 <= i < |list| :: list[i].category == c
    ensures NoDuplicates(Categories(list)[1..])
    ensures forall i, j | 1 <= i < j < |Categories(list)| ::
      FirstIndex(Project(list, CategoryOf), Categories(list)[i]) < FirstIndex(Project(list, CategoryOf), Categories(list)[j])
  {
    assert Categories(list)[1..] == Distinct(Project(list, CategoryOf));
    DistinctKeysFacts(list, CategoryOf);
  }

  /** The suggestions shown under a filter. */
  function Filtered(filter: string, list: seq<Suggestion>): seq<Suggestion> {
    if filter == "all" then list else KeyFilter(list, CategoryOf, filter)
  }

  /** "all" shows every suggestion; another filter exactly those of its category, with their multiplicity and order. */
  lemma FilteredFacts(filter: string, list: seq<Suggestion>)
    ensures filter == "all" ==> Filtered(filter, list) == list
    ensures filter != "all" ==> forall s :: s in Filtered(filter, list) <==> s in list && s.category == filter
    ensures filter != "all" ==> forall s: Suggestion | s.category == filter ::
      multiset(Filtered(filter, list))[s] == multiset(list)[s]
  {
    if filter != "all" {
      KeyFilterMembers(list, CategoryOf, filter);
      forall s: Suggestion | s.category == filter
        ensures multiset(Filtered(filter, list))[s] == multiset(list)[s]
      {
        KeyFilterMultiplicity(list, CategoryOf, s);
      }
    }
  }

  function IsAccepted(accepted: set<string>): Suggestion -> bool {
    (s: Suggestion) => s.id in accepted
  }

  function Reduction(s: Suggestion): int {
    s.riskReduction
  }

  function Days(s: Suggestion): int {
    s.effortDays
  }

  /** `totalRiskReduction` (with `f` the risk reduction) and `totalEffort` (with `f` the effort days). */
  function AcceptedTotal(list: seq<Suggestion>, accepted: set<string>, f: Suggestion -> int): int {
    SumOf(Filter(list, IsAccepted(accepted)), f)
  }

  function TotalRiskReduction(list: seq<Suggestion>, accepted: set<string>): int {
    AcceptedTotal(list, accepted, Reduction)
  }

  function TotalEffort(list: seq<Suggestion>, accepted: set<string>): int {
    AcceptedTotal(list, accepted, Days)
  }

  /** The suggestions carrying `id`. */
  function WithId(list: seq<Suggestion>, id: string): seq<Suggestion> {
    Filter(list, (s: Suggestion) => s.id == id)
  }

  /** Nothing accepted totals zero. */
  lemma {:induction false} NothingAccepted(list: seq<Suggestion>, f: Suggestion -> int)
    ensures AcceptedTotal(list, {}, f) == 0
  {
    if list != [] {
      var init := list[..|list| - 1];
      NothingAccepted(init, f);
      assert !IsAccepted({})(list[|list| - 1]);
      assert Filter(list, IsAccepted({})) == Filter(init, IsAccepted({})) + [];
      assert Filter(init, IsAccepted({})) + [] == Filter(init, IsAccepted({}));
    }
  }

  /** Accepting one more id adds the amounts of exactly the suggestions carrying it. */
  lemma {:induction false} AcceptAdds(list: seq<Suggestion>, accepted: set<string>, id: string, f: Suggestion -> int)
    requires id !in accepted
    ensures AcceptedTotal(list, accepted + {id}, f) == AcceptedTotal(list, accepted, f) + SumOf(WithId(list, id), f)
  {
    if list != [] {
      var init := list[..|list| - 1];
      var x := list[|list| - 1];
      AcceptAdds(init, accepted, id, f);
      var a := Filter(init, IsAccepted(accepted));
      var a' := Filter(init, IsAccepted(accepted + {id}));
      var w := WithId(init, id);
      SumOfConcat(a, if x.id in accepted then [x] else [], f);
      SumOfConcat(a', if x.id in accepted + {id} then [x] else [], f);
      SumOfConcat(w, if x.id == id then [x] else [], f);
    }
  }

  /** Withdrawing an accepted id takes the amounts of the suggestions carrying it away again. */
  lemma WithdrawSubtracts(list: seq<Suggestion>, accepted: set<string>, id: string, f: Suggestion -> int)
    requires id in accepted
    ensures AcceptedTotal(list, accepted - {id}, f) == AcceptedTotal(list, accepted, f) - SumOf(WithId(list, id), f)
  {
    AcceptAdds(list, accepted - {id}, id, f);
    assert accepted - {id} + {id} == accepted;
  }

  /**
   * The page's decision state: the filter and the two id sets, which the
   * accept and reject buttons keep disjoint.
   */
  class PageState {
    var filter: string
    var acceptedIds: set<string>
    var rejectedIds: set<string>

    /** No id is both accepted and rejected. */
    predicate Valid()
      reads this
    {
      acceptedIds !! rejectedIds
    }

    constructor()
      ensures filter == "all" && acceptedIds == {} && rejectedIds == {} && Valid()
    {
      filter := "all";
      acceptedIds := {};
      rejectedIds := {};
    }

    /** A chip is clicked. */
    method SetFilter(f: string)
      modifies this
      ensures filter == f && acceptedIds == old(acceptedIds) && rejectedIds == old(rejectedIds)
    {
      filter := f;
    }

    /** The accept button: toggles the id's acceptance and always clears its rejection. */
    method Accept(id: string)
      requires Valid()
      modifies this
      ensures Valid()
      ensures acceptedIds == if id in old(acceptedIds) then old(acceptedIds) - {id} else old(acceptedIds) + {id}
      ensures rejectedIds == old(rejectedIds) - {id}
      ensures filter == old(filter)
    {
      var next := acceptedIds;
      if id in acceptedIds {
        next := next - {id};
      } else {
        next := next + {id};
      }
      acceptedIds := next;
      rejectedIds := rejectedIds - {id};
    }

    /** The reject button: toggles the id's rejection and always clears its acceptance. */
    method Reject(id: string)
      requires Valid()
      modifies this
      ensures Valid()
      ensures rejectedIds == if id in old(rejectedIds) then old(rejectedIds) - {id} else old(rejectedIds) + {id}
      ensures acceptedIds == old(acceptedIds) - {id}
      ensures filter == old(filter)
    {
      var next := rejectedIds;
      if id in rejectedIds {
        next := next - {id};
      } else {
        next := next + {id};
      }
      rejectedIds := next;
      acceptedIds := acceptedIds - {id};
    }
  }
}
