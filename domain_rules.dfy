/**
 * What the two domain analyzers (`engine/services/bfsi_analyzer.py` and
 * `engine/services/engineering_analyzer.py`) have in common: a node read
 * from the dependency graph, an ordered keyword dictionary from domain name
 * to keywords, and the scan that settles on the first domain one of whose
 * keywords occurs in the node's text.
 */
module DomainRules {
  import opened Wrappers
  import opened Strings

  /** A graph node as the analyzers read it: `labelText` (the `label` key), `file` and `risk` may be absent. */
  datatype Node = Node(id: string, labelText: Option<string>, file: Option<string>, risk: Option<string>)

  /** A keyword dictionary in insertion order: `(domain, keywords)` pairs. */
  type Table = seq<(string, seq<string>)>

  /** Only `critical` and `high` nodes produce an impact record. */
  predicate Reported(risk: string) {
    risk == "critical" || risk == "high"
  }

  /** `any(kw in text for kw in kws)` holds for at least one of `texts`. */
  predicate Hits(kws: seq<string>, texts: seq<string>) {
    exists t, k | 0 <= t < |texts| && 0 <= k < |kws| :: Contains(texts[t], kws[k])
  }

  /** Every keyword of the table is non-empty. */
  predicate KeywordsNonEmpty(table: Table) {
    forall i, k | 0 <= i < |table| && 0 <= k < |table[i].1| :: table[i].1[k] != []
  }

  /** The domain the scan over the table settles on, if any: a domain of the table with a hit. */
  function FirstMatch(table: Table, texts: seq<string>): (r: Option<string>)
    ensures r.Some? ==> exists i | 0 <= i < |table| :: table[i].0 == r.value && Hits(table[i].1, texts)
  {
    if table == [] then None
    else if Hits(table[0].1, texts) then Some(table[0].0)
    else FirstMatch(table[1..], texts)
  }

  /** The scan finds nothing exactly when no domain has a hit. */
  lemma {:induction false} FirstMatchNone(table: Table, texts: seq<string>)
    ensures FirstMatch(table, texts).None? <==> forall i | 0 <= i < |table| :: !Hits(table[i].1, texts)
  {
    if table != [] && !Hits(table[0].1, texts) {
      FirstMatchNone(table[1..], texts);
      assert forall i | 1 <= i < |table| :: table[i] == table[1..][i - 1];
    }
  }

  /** The scan settles on the domain at the first index with a hit (the `break`). */
  lemma {:induction false} FirstMatchAt(table: Table, texts: seq<string>, i: nat)
    requires i < |table| && Hits(table[i].1, texts)
    requires forall j | 0 <= j < i :: !Hits(table[j].1, texts)
    ensures FirstMatch(table, texts) == Some(table[i].0)
  {
    if i > 0 {
      assert !Hits(table[0].1, texts);
      forall j | 0 <= j < i - 1
        ensures !Hits(table[1..][j].1, texts)
      {
        assert table[1..][j] == table[j + 1];
      }
      FirstMatchAt(table[1..], texts, i - 1);
    }
  }

  /** A domain the scan settles on comes from the table and has a hit. */
  lemma {:induction false} FirstMatchFound(table: Table, texts: seq<string>) returns (i: nat)
    requires FirstMatch(table, texts).Some?
    ensures i < |table| && table[i].0 == FirstMatch(table, texts).value
    ensures Hits(table[i].1, texts) && forall j | 0 <= j < i :: !Hits(table[j].1, texts)
  {
    if Hits(table[0].1, texts) {
      i := 0;
    } else {
      var i' := FirstMatchFound(table[1..], texts);
      i := i' + 1;
      forall j | 0 <= j < i
        ensures !Hits(table[j].1, texts)
      {
        if j > 0 {
          assert table[j] == table[1..][j - 1];
        }
      }
    }
  }

  /** With non-empty keywords, empty texts hit nothing. */
  lemma EmptyTextsNoMatch(table: Table, texts: seq<string>)
    requires KeywordsNonEmpty(table)
    requires forall t | 0 <= t < |texts| :: texts[t] == []
    ensures FirstMatch(table, texts).None?
  {
    forall i | 0 <= i < |table|
      ensures !Hits(table[i].1, texts)
    {
      forall t, k | 0 <= t < |texts| && 0 <= k < |table[i].1|
        ensures !Contains(texts[t], table[i].1[k])
      {
        assert |table[i].1[k]| > 0;
      }
    }
    FirstMatchNone(table, texts);
  }

  /** The domain loop of `analyze_domain`: stop at the first domain with a hit. */
  method MatchDomain(table: Table, texts: seq<string>) returns (matched: Option<string>)
    ensures matched == FirstMatch(table, texts)
  {
    matched := None;
    var i := 0;
    while i < |table|
      invariant 0 <= i <= |table|
      invariant FirstMatch(table, texts) == FirstMatch(table[i..], texts)
      invariant matched == None
    {
      assert table[i..][1..] == table[i + 1..];
      if Hits(table[i].1, texts) {
        matched := Some(table[i].0);
        break;
      }
      i := i + 1;
    }
  }
}
