/**
 * Sequence helpers (JavaScript `filter`/`slice`/`new Set`, Python list
 * comprehensions) and an insertion-ordered dictionary for Python `dict` and
 * JavaScript object keys.
 */
module Collections {
  import opened Wrappers

  // ---------------------------------------------------------------------------
  // Filtering, counting, summing

  /** `s.filter(p)`: the elements satisfying `p`, in order. */
  function Filter<T(!new)>(s: seq<T>, p: T -> bool): (r: seq<T>)
    ensures |r| <= |s|
    ensures forall x :: x in r <==> x in s && p(x)
  {
    if s == [] then []
    else Filter(s[..|s| - 1], p) + (if p(s[|s| - 1]) then [s[|s| - 1]] else [])
  }

  lemma {:induction false} FilterConcat<T(!new)>(a: seq<T>, b: seq<T>, p: T -> bool)
    ensures Filter(a + b, p) == Filter(a, p) + Filter(b, p)
    decreases |b|
  {
    if b == [] {
      assert a + b == a;
    } else {
      var b' := b[..|b| - 1];
      assert (a + b)[..|a + b| - 1] == a + b';
      FilterConcat(a, b', p);
    }
  }

  lemma {:induction false} FilterAll<T(!new)>(s: seq<T>, p: T -> bool)
    requires forall x :: x in s ==> p(x)
    ensures Filter(s, p) == s
  {
    if s != [] {
      var init, last := s[..|s| - 1], s[|s| - 1];
      forall x | x in init
        ensures p(x)
      {
        var i :| 0 <= i < |init| && init[i] == x;
        assert s[i] == x;
      }
      FilterAll(init, p);
      assert last in s;
      assert init + [last] == s;
    }
  }

  lemma {:induction false} FilterNone<T(!new)>(s: seq<T>, p: T -> bool)
    requires forall x :: x in s ==> !p(x)
    ensures Filter(s, p) == []
  {
    if s != [] {
      FilterNone(s[..|s| - 1], p);
    }
  }

  /**
   * A loop that appends `y` for every element `x` with `f(x) == Some(y)`
   * and skips the others.
   */
  function FilterMap<T(!new), U(!new)>(s: seq<T>, f: T -> Option<U>): (r: seq<U>)
    ensures |r| <= |s|
  {
    if s == [] then []
    else
      var prev := FilterMap(s[..|s| - 1], f);
      match f(s[|s| - 1])
      case None => prev
      case Some(y) => prev + [y]
  }

  /** A prefix one element longer is the shorter prefix and that element. */
  lemma {:induction false} TakeSnoc<T>(s: seq<T>, i: nat)
    requires i < |s|
    ensures s[..i + 1] == s[..i] + [s[i]]
  {
  }

  /** Appending an element appends its output, if it has one. */
  lemma {:induction false} FilterMapSnoc<T(!new), U(!new)>(s: seq<T>, x: T, f: T -> Option<U>)
    ensures FilterMap(s + [x], f) == FilterMap(s, f) + (if f(x).Some? then [f(x).value] else [])
  {
    assert (s + [x])[..|s|] == s;
  }

  /**
   * One output per element that yields one, in order: the k-th output comes
   * from element `idx[k]`, the indices increase, and every element that
   * yields an output is among them.
   */
  lemma {:induction false} FilterMapIndices<T(!new), U(!new)>(s: seq<T>, f: T -> Option<U>) returns (idx: seq<nat>)
    ensures |idx| == |FilterMap(s, f)|
    ensures forall k | 0 <= k < |idx| :: idx[k] < |s| && f(s[idx[k]]) == Some(FilterMap(s, f)[k])
    ensures forall k, l | 0 <= k < l < |idx| :: idx[k] < idx[l]
    ensures forall i | 0 <= i < |s| :: f(s[i]).Some? ==> i in idx
  {
    if s == [] {
      idx := [];
    } else {
      var init := s[..|s| - 1];
      var n := |s| - 1;
      var prev := FilterMapIndices(init, f);
      assert forall i | 0 <= i < |init| :: init[i] == s[i];
      if f(s[n]).Some? {
        idx := prev + [n];
      } else {
        idx := prev;
      }
    }
  }

  /** When `f` yields a value exactly where `p` holds, there is one output per element satisfying `p`. */
  lemma {:induction false} FilterMapLength<T(!new), U(!new)>(s: seq<T>, f: T -> Option<U>, p: T -> bool)
    requires forall x :: f(x).Some? <==> p(x)
    ensures |FilterMap(s, f)| == |Filter(s, p)|
  {
    if s != [] {
      FilterMapLength(s[..|s| - 1], f, p);
    }
  }

  /** The number of elements satisfying `p` (`s.filter(p).length`). */
  function Count<T(!new)>(s: seq<T>, p: T -> bool): nat {
    |Filter(s, p)|
  }

  /** The sum of `f` over `s` (a `reduce((a, x) => a + f(x), 0)`). */
  function SumOf<T(!new)>(s: seq<T>, f: T -> int): int {
    if s == [] then 0 else SumOf(s[..|s| - 1], f) + f(s[|s| - 1])
  }

  lemma {:induction false} SumOfConcat<T(!new)>(a: seq<T>, b: seq<T>, f: T -> int)
    ensures SumOf(a + b, f) == SumOf(a, f) + SumOf(b, f)
    decreases |b|
  {
    if b == [] {
      assert a + b == a;
    } else {
      var b' := b[..|b| - 1];
      assert (a + b)[..|a + b| - 1] == a + b';
      SumOfConcat(a, b', f);
    }
  }

  /** `s.slice(0, n)` / `s[:n]` for `n >= 0`. */
  function Take<T(!new)>(s: seq<T>, n: nat): (r: seq<T>)
    ensures |r| == if n < |s| then n else |s|
    ensures r == s[..|r|]
  {
    if n < |s| then s[..n] else s
  }

  // ---------------------------------------------------------------------------
  // Distinct elements in first-occurrence order (`[...new Set(s)]`)

  predicate NoDuplicates<T(==)>(s: seq<T>) {
    forall i, j :: 0 <= i < j < |s| ==> s[i] != s[j]
  }

  function Distinct<T(==, !new)>(s: seq<T>): (r: seq<T>)
    ensures forall x :: x in r <==> x in s
    ensures NoDuplicates(r)
  {
    if s == [] then []
    else
      var d := Distinct(s[..|s| - 1]);
      if s[|s| - 1] in d then d else d + [s[|s| - 1]]
  }

  /** Dropping repetitions never lengthens a sequence. */
  lemma {:induction false} DistinctLength<T(!new)>(s: seq<T>)
    ensures |Distinct(s)| <= |s|
  {
    if s != [] {
      DistinctLength(s[..|s| - 1]);
    }
  }

  /** A sequence without repetitions has as many distinct members as elements. */
  lemma {:induction false} DistinctCard<T(!new)>(s: seq<T>)
    requires NoDuplicates(s)
    ensures |set x | x in s| == |s|
  {
    if s != [] {
      var init := s[..|s| - 1];
      DistinctCard(init);
      assert (set x | x in s) == (set x | x in init) + {s[|s| - 1]};
      assert s[|s| - 1] !in init by {
        forall i | 0 <= i < |init|
          ensures init[i] != s[|s| - 1]
        {
          assert init[i] == s[i];
        }
      }
    }
  }

  /**
   * Lists the members of a finite set once each, in an order left open
   * (iteration over a Python `set`).
   */
  method Enumerate<T(==, !new)>(s: set<T>) returns (xs: seq<T>)
    ensures forall x :: x in xs <==> x in s
    ensures NoDuplicates(xs) && |xs| == |s|
  {
    xs := [];
    var rest := s;
    while rest != {}
      invariant rest <= s
      invariant forall x :: x in xs <==> x in s && x !in rest
      invariant NoDuplicates(xs)
      decreases |rest|
    {
      var x :| x in rest;
      xs := xs + [x];
      rest := rest - {x};
    }
    DistinctCard(xs);
    assert (set x | x in xs) == s;
  }

  /** The index of the first occurrence of `x` in `s`. */
  function FirstIndex<T(==)>(s: seq<T>, x: T): (i: nat)
    requires x in s
    ensures i < |s| && s[i] == x && x !in s[..i]
  {
    if s[0] == x then 0 else 1 + FirstIndex(s[1..], x)
  }

  lemma FirstIndexPrefix<T(!new)>(s: seq<T>, t: seq<T>, x: T)
    requires x in s
    ensures FirstIndex(s + t, x) == FirstIndex(s, x)
  {
    if s[0] != x {
      assert (s + t)[1..] == s[1..] + t;
      FirstIndexPrefix(s[1..], t, x);
    }
  }

  lemma {:induction false} FirstIndexAppendNew<T(!new)>(s: seq<T>, x: T)
    requires x !in s
    ensures FirstIndex(s + [x], x) == |s|
  {
    assert forall j | 0 <= j < |s| :: (s + [x])[j] == s[j];
  }

  /** `Distinct` lists values in the order in which they first occur. */
  lemma {:induction false} DistinctFirstOccurrenceOrder<T(!new)>(s: seq<T>, i: nat, j: nat)
    requires i < j < |Distinct(s)|
    ensures FirstIndex(s, Distinct(s)[i]) < FirstIndex(s, Distinct(s)[j])
    decreases |s|
  {
    var s' := s[..|s| - 1];
    var d := Distinct(s');
    var x := s[|s| - 1];
    assert s == s' + [x];
    if j < |d| {
      DistinctFirstOccurrenceOrder(s', i, j);
      FirstIndexPrefix(s', [x], d[i]);
      FirstIndexPrefix(s', [x], d[j]);
    } else {
      // Distinct(s)[j] == x is new: its first occurrence is the last index
      assert x !in d && Distinct(s)[j] == x && x !in s';
      FirstIndexPrefix(s', [x], d[i]);
      FirstIndexAppendNew(s', x);
    }
  }

  /** `s.find(p)`: the first element satisfying `p`, if any. */
  function Find<T(!new)>(s: seq<T>, p: T -> bool): (r: Option<T>)
    ensures r.None? <==> forall i | 0 <= i < |s| :: !p(s[i])
    ensures r.Some? ==> exists i | 0 <= i < |s| :: s[i] == r.value && p(s[i]) && forall j | 0 <= j < i :: !p(s[j])
  {
    if s == [] then None
    else if p(s[0]) then Some(s[0])
    else
      var r := Find(s[1..], p);
      assert r.Some? ==> exists i | 1 <= i < |s| :: s[i] == r.value && p(s[i]) && forall j | 1 <= j < i :: !p(s[j]);
      r
  }

  /** The projection is the key of each element at its index. */
  lemma {:induction false} ProjectIndex<T, K>(s: seq<T>, key: T -> K)
    ensures forall i | 0 <= i < |s| :: Project(s, key)[i] == key(s[i])
  {
    if s != [] {
      ProjectIndex(s[..|s| - 1], key);
    }
  }

  /**
   * `[...new Set(s.map(key))]`: each key of an element once, in the order in
   * which the keys first occur.
   */
  lemma DistinctKeysFacts<T, K(!new)>(s: seq<T>, key: T -> K)
    ensures forall k :: k in Distinct(Project(s, key)) <==> exists i | 0 <= i < |s| :: key(s[i]) == k
    ensures NoDuplicates(Distinct(Project(s, key)))
    ensures forall i, j | 0 <= i < j < |Distinct(Project(s, key))| ::
      FirstIndex(Project(s, key), Distinct(Project(s, key))[i]) < FirstIndex(Project(s, key), Distinct(Project(s, key))[j])
  {
    var ks := Project(s, key);
    ProjectIndex(s, key);
    forall k
      ensures k in ks <==> exists i | 0 <= i < |s| :: key(s[i]) == k
    {
      if k in ks {
        var i :| 0 <= i < |ks| && ks[i] == k;
        assert key(s[i]) == k;
      }
      if exists i | 0 <= i < |s| :: key(s[i]) == k {
        var i :| 0 <= i < |s| && key(s[i]) == k;
        assert ks[i] == k;
      }
    }
    forall i, j | 0 <= i < j < |Distinct(ks)|
      ensures FirstIndex(ks, Distinct(ks)[i]) < FirstIndex(ks, Distinct(ks)[j])
    {
      DistinctFirstOccurrenceOrder(ks, i, j);
    }
  }

  // ---------------------------------------------------------------------------
  // Insertion-ordered dictionaries

  /**
   * A Python `dict` / JavaScript object: `keys` is the iteration order
   * (insertion order of first assignment), `entries` the mapping.
   */
  datatype ODict<K(!new), V> = ODict(keys: seq<K>, entries: map<K, V>) {

    ghost predicate Valid() {
      NoDuplicates(keys) && forall k :: k in entries <==> k in keys
    }

    /** `d[k] = v`: a new key goes last, an existing key keeps its place. */
    function Put(k: K, v: V): ODict<K, V> {
      if k in entries then ODict(keys, entries[k := v]) else ODict(keys + [k], entries[k := v])
    }

    /** Storing keeps the keys distinct and in step with the entries. */
    lemma PutValid(k: K, v: V)
      requires Valid()
      ensures Put(k, v).Valid()
    {
    }

    /** `d.get(k, default)`. */
    function Get(k: K, default: V): V {
      if k in entries then entries[k] else default
    }

    /** Reading back after a store. */
    lemma GetPut(k: K, v: V, k': K, default: V)
      ensures Put(k, v).Get(k', default) == if k == k' then v else Get(k', default)
    {
    }

    /** Storing twice under one key is storing the second value. */
    lemma PutPut(k: K, v1: V, v2: V)
      ensures Put(k, v1).Put(k, v2) == Put(k, v2)
    {
      assert entries[k := v1][k := v2] == entries[k := v2];
    }
  }

  function EmptyDict<K(!new), V(!new)>(): (r: ODict<K, V>)
    ensures r.Valid() && r.keys == []
  {
    ODict([], map[])
  }

  /** The sum of `f` over the entries of `m`, taken in the order of `keys`. */
  function SumOver<K(!new), V(!new)>(keys: seq<K>, m: map<K, V>, f: V -> int): int {
    if keys == [] then 0
    else
      var last := keys[|keys| - 1];
      SumOver(keys[..|keys| - 1], m, f) + if last in m then f(m[last]) else 0
  }

  lemma {:induction false} SumOverAgree<K(!new), V(!new), W(!new)>(
    keys: seq<K>, m1: map<K, V>, m2: map<K, W>, f: V -> int, g: W -> int)
    requires forall k :: k in keys ==> k in m1 && k in m2 && f(m1[k]) == g(m2[k])
    ensures SumOver(keys, m1, f) == SumOver(keys, m2, g)
  {
    if keys != [] {
      SumOverAgree(keys[..|keys| - 1], m1, m2, f, g);
    }
  }

  /** Changing the entry of one listed key changes the sum by the difference. */
  lemma {:induction false} SumOverUpdate<K(!new), V(!new)>(keys: seq<K>, m: map<K, V>, k: K, v: V, f: V -> int)
    requires NoDuplicates(keys) && k in keys
    requires forall x :: x in keys ==> x in m
    ensures SumOver(keys, m[k := v], f) == SumOver(keys, m, f) - f(m[k]) + f(v)
  {
    var last := keys[|keys| - 1];
    var init := keys[..|keys| - 1];
    if last == k {
      forall i | 0 <= i < |init|
        ensures init[i] != k
      {
        assert init[i] == keys[i];
      }
      SumOverAgree(init, m, m[k := v], f, f);
    } else {
      assert k in init;
      SumOverUpdate(init, m, k, v, f);
    }
  }

  /** Appending a fresh key adds its entry to the sum. */
  lemma SumOverAppend<K(!new), V(!new)>(keys: seq<K>, m: map<K, V>, k: K, v: V, f: V -> int)
    requires k !in keys
    requires forall x :: x in keys ==> x in m
    ensures SumOver(keys + [k], m[k := v], f) == SumOver(keys, m, f) + f(v)
  {
    assert (keys + [k])[..|keys|] == keys;
    SumOverAgree(keys, m, m[k := v], f, f);
  }

  function NatValue(n: nat): int { n }

  function SizeOf<T>(g: seq<T>): int { |g| }

  /** The keys of the elements of `s`, in order. */
  function Project<T, K>(s: seq<T>, key: T -> K): (r: seq<K>)
    ensures |r| == |s|
  {
    if s == [] then [] else Project(s[..|s| - 1], key) + [key(s[|s| - 1])]
  }

  lemma {:induction false} ProjectSnoc<T, K>(s: seq<T>, x: T, key: T -> K)
    ensures Project(s + [x], key) == Project(s, key) + [key(x)]
  {
    assert (s + [x])[..|s|] == s;
  }

  /** Python's `d[k] = d.get(k, 0) + 1` folded over the keys `ks`. */
  function Tally<K(!new)>(ks: seq<K>): ODict<K, nat> {
    if ks == [] then EmptyDict()
    else
      var d := Tally(ks[..|ks| - 1]);
      var k := ks[|ks| - 1];
      d.Put(k, d.Get(k, 0) + 1)
  }

  lemma {:induction false} TallyValid<K(!new)>(ks: seq<K>)
    ensures Tally(ks).Valid()
  {
    if ks != [] {
      TallyValid(ks[..|ks| - 1]);
      var d := Tally(ks[..|ks| - 1]);
      var k := ks[|ks| - 1];
      d.PutValid(k, d.Get(k, 0) + 1);
    }
  }

  /** Counting one more key bumps its count. */
  lemma {:induction false} TallySnoc<K(!new)>(ks: seq<K>, k: K)
    ensures Tally(ks + [k]) == Tally(ks).Put(k, Tally(ks).Get(k, 0) + 1)
  {
    var t := ks + [k];
    assert t[..|t| - 1] == ks;
    var d := Tally(ks);
    assert Tally(t) == d.Put(k, d.Get(k, 0) + 1);
  }

  /** The occurrence count of each key of the elements of `s`, keys in first-occurrence order. */
  function CountBy<T(!new), K(!new)>(s: seq<T>, key: T -> K): ODict<K, nat> {
    Tally(Project(s, key))
  }

  lemma CountByValid<T(!new), K(!new)>(s: seq<T>, key: T -> K)
    ensures CountBy(s, key).Valid()
  {
    TallyValid(Project(s, key));
  }

  /** Counting one more element bumps its key's count. */
  lemma CountBySnoc<T(!new), K(!new)>(s: seq<T>, x: T, key: T -> K)
    ensures CountBy(s + [x], key) == CountBy(s, key).Put(key(x), CountBy(s, key).Get(key(x), 0) + 1)
  {
    ProjectSnoc(s, x, key);
    TallySnoc(Project(s, key), key(x));
  }

  lemma {:induction false} SumOfSnoc<T(!new)>(s: seq<T>, x: T, f: T -> int)
    ensures SumOf(s + [x], f) == SumOf(s, f) + f(x)
  {
    assert (s + [x])[..|s|] == s;
  }

  /** The number of elements of `s` whose key is `k`. */
  function KeyCount<T(!new), K(==, !new)>(s: seq<T>, key: T -> K, k: K): (n: nat)
    ensures n <= |s|
  {
    if s == [] then 0 else KeyCount(s[..|s| - 1], key, k) + (if key(s[|s| - 1]) == k then 1 else 0)
  }

  /** The counts of the listed keys, added up. */
  function SumKeyCounts<T(!new), K(==, !new)>(s: seq<T>, key: T -> K, keys: seq<K>): nat {
    if keys == [] then 0 else SumKeyCounts(s, key, keys[..|keys| - 1]) + KeyCount(s, key, keys[|keys| - 1])
  }

  lemma {:induction false} SumKeyCountsStep<T(!new), K(!new)>(s: seq<T>, x: T, key: T -> K, keys: seq<K>)
    requires NoDuplicates(keys)
    ensures SumKeyCounts(s + [x], key, keys) == SumKeyCounts(s, key, keys) + (if key(x) in keys then 1 else 0)
  {
    assert (s + [x])[..|s|] == s;
    if keys != [] {
      var init := keys[..|keys| - 1];
      SumKeyCountsStep(s, x, key, init);
      if key(x) == keys[|keys| - 1] {
        forall i | 0 <= i < |init|
          ensures init[i] != key(x)
        {
          assert init[i] == keys[i];
        }
      }
    }
  }

  /** When every key is listed once, the per-key counts add up to the length. */
  lemma {:induction false} KeyCountsPartition<T(!new), K(!new)>(s: seq<T>, key: T -> K, keys: seq<K>)
    requires NoDuplicates(keys)
    requires forall x | x in s :: key(x) in keys
    ensures SumKeyCounts(s, key, keys) == |s|
  {
    if s == [] {
      ZeroKeyCounts(key, keys);
    } else {
      var s' := s[..|s| - 1];
      assert s == s' + [s[|s| - 1]];
      KeyCountsPartition(s', key, keys);
      SumKeyCountsStep(s', s[|s| - 1], key, keys);
    }
  }

  lemma {:induction false} ZeroKeyCounts<T(!new), K(!new)>(key: T -> K, keys: seq<K>)
    ensures SumKeyCounts([], key, keys) == 0
  {
    if keys != [] {
      ZeroKeyCounts(key, keys[..|keys| - 1]);
    }
  }

  /** Each key of `CountBy` counts exactly the elements with that key; absent keys have none. */
  lemma {:induction false} CountByEntry<T(!new), K(!new)>(s: seq<T>, key: T -> K, k: K)
    ensures CountBy(s, key).Get(k, 0) == KeyCount(s, key, k)
    ensures k in CountBy(s, key).entries <==> KeyCount(s, key, k) > 0
  {
    if s != [] {
      var s' := s[..|s| - 1];
      CountByEntry(s', key, k);
      TallySnoc(Project(s', key), key(s[|s| - 1]));
    }
  }

  /** The counts of `Tally` add up to the number of keys counted. */
  lemma {:induction false} TallySum<K(!new)>(ks: seq<K>)
    ensures SumOver(Tally(ks).keys, Tally(ks).entries, NatValue) == |ks|
  {
    if ks != [] {
      var init := ks[..|ks| - 1];
      TallySum(init);
      TallyValid(init);
      var d := Tally(init);
      var k := ks[|ks| - 1];
      SumOverPut(d, k, d.Get(k, 0) + 1, NatValue);
    }
  }

  /** The counts of `CountBy` add up to the length of the input. */
  lemma CountBySum<T(!new), K(!new)>(s: seq<T>, key: T -> K)
    ensures SumOver(CountBy(s, key).keys, CountBy(s, key).entries, NatValue) == |s|
  {
    TallySum(Project(s, key));
  }

  /** Storing `v` under `k` replaces that key's share of the sum (nothing, for a new key) by `f(v)`. */
  lemma SumOverPut<K(!new), V(!new)>(d: ODict<K, V>, k: K, v: V, f: V -> int)
    requires d.Valid()
    ensures SumOver(d.Put(k, v).keys, d.Put(k, v).entries, f) ==
      SumOver(d.keys, d.entries, f) - (if k in d.entries then f(d.entries[k]) else 0) + f(v)
  {
    if k in d.entries {
      SumOverUpdate(d.keys, d.entries, k, v, f);
    } else {
      SumOverAppend(d.keys, d.entries, k, v, f);
    }
  }

  /** The elements of `s` whose key is `k`, in order. */
  function KeyFilter<T(!new), K(==, !new)>(s: seq<T>, key: T -> K, k: K): (r: seq<T>)
    ensures |r| == KeyCount(s, key, k)
  {
    if s == [] then []
    else KeyFilter(s[..|s| - 1], key, k) + (if key(s[|s| - 1]) == k then [s[|s| - 1]] else [])
  }

  lemma {:induction false} KeyFilterMembers<T(!new), K(!new)>(s: seq<T>, key: T -> K, k: K)
    ensures forall x :: x in KeyFilter(s, key, k) <==> x in s && key(x) == k
  {
    if s != [] {
      KeyFilterMembers(s[..|s| - 1], key, k);
      assert s == s[..|s| - 1] + [s[|s| - 1]];
    }
  }

  /** A filter whose test is "the key is `k`" is the key filter of `k`. */
  lemma {:induction false} FilterIsKeyFilter<T(!new), K(!new)>(s: seq<T>, p: T -> bool, key: T -> K, k: K)
    requires forall x :: p(x) <==> key(x) == k
    ensures Filter(s, p) == KeyFilter(s, key, k)
  {
    if s != [] {
      FilterIsKeyFilter(s[..|s| - 1], p, key, k);
    }
  }

  lemma {:induction false} KeyFilterConcat<T(!new), K(!new)>(a: seq<T>, b: seq<T>, key: T -> K, k: K)
    ensures KeyFilter(a + b, key, k) == KeyFilter(a, key, k) + KeyFilter(b, key, k)
    decreases |b|
  {
    if b == [] {
      assert a + b == a;
    } else {
      var b' := b[..|b| - 1];
      assert (a + b)[..|a + b| - 1] == a + b';
      KeyFilterConcat(a, b', key, k);
    }
  }

  /** Splitting into four key bands and filtering the bands again gives back the band of `k`. */
  lemma KeyFilterBands<T(!new), K(!new)>(s: seq<T>, key: T -> K, k1: K, k2: K, k3: K, k4: K, k: K)
    requires k1 != k2 && k1 != k3 && k1 != k4 && k2 != k3 && k2 != k4 && k3 != k4
    requires k == k1 || k == k2 || k == k3 || k == k4
    ensures KeyFilter(KeyFilter(s, key, k1) + KeyFilter(s, key, k2) + KeyFilter(s, key, k3) + KeyFilter(s, key, k4), key, k)
      == KeyFilter(s, key, k)
  {
    var b1, b2, b3, b4 := KeyFilter(s, key, k1), KeyFilter(s, key, k2), KeyFilter(s, key, k3), KeyFilter(s, key, k4);
    KeyFilterConcat(b1 + b2 + b3, b4, key, k);
    KeyFilterConcat(b1 + b2, b3, key, k);
    KeyFilterConcat(b1, b2, key, k);
    KeyFilterTwice(s, key, k1, k);
    KeyFilterTwice(s, key, k2, k);
    KeyFilterTwice(s, key, k3, k);
    KeyFilterTwice(s, key, k4, k);
    PickBand(KeyFilter(b1, key, k), KeyFilter(b2, key, k), KeyFilter(b3, key, k), KeyFilter(b4, key, k),
      b1, b2, b3, b4, k1, k2, k3, k4, k);
  }

  /** Of four bands filtered by `k`, only the band of `k` survives the concatenation. */
  lemma PickBand<T, K>(f1: seq<T>, f2: seq<T>, f3: seq<T>, f4: seq<T>,
                       b1: seq<T>, b2: seq<T>, b3: seq<T>, b4: seq<T>, k1: K, k2: K, k3: K, k4: K, k: K)
    requires k1 != k2 && k1 != k3 && k1 != k4 && k2 != k3 && k2 != k4 && k3 != k4
    requires f1 == (if k1 == k then b1 else []) && f2 == (if k2 == k then b2 else [])
    requires f3 == (if k3 == k then b3 else []) && f4 == (if k4 == k then b4 else [])
    ensures f1 + f2 + f3 + f4 == if k == k1 then b1 else if k == k2 then b2 else if k == k3 then b3 else if k == k4 then b4 else []
  {
    if k == k1 {
      assert f1 + f2 == b1;
      assert f1 + f2 + f3 == b1;
    } else if k == k2 {
      assert f1 + f2 == b2;
      assert f1 + f2 + f3 == b2;
    } else if k == k3 {
      assert f1 + f2 == [];
      assert f1 + f2 + f3 == b3;
    } else {
      assert f1 + f2 + f3 == [];
    }
  }

  /** Filtering twice by key keeps the first filter's result, or nothing when the keys differ. */
  lemma {:induction false} KeyFilterTwice<T(!new), K(!new)>(s: seq<T>, key: T -> K, k: K, k': K)
    ensures KeyFilter(KeyFilter(s, key, k), key, k') == if k == k' then KeyFilter(s, key, k) else []
  {
    if s != [] {
      var init := s[..|s| - 1];
      var x := s[|s| - 1];
      KeyFilterTwice(init, key, k, k');
      KeyFilterConcat(KeyFilter(init, key, k), if key(x) == k then [x] else [], key, k');
      if key(x) == k {
        assert [x][..0] == [];
      }
    }
  }

  /** Filtering by an element's own key keeps every copy of it. */
  lemma {:induction false} KeyFilterMultiplicity<T(!new), K(!new)>(s: seq<T>, key: T -> K, y: T)
    ensures multiset(KeyFilter(s, key, key(y)))[y] == multiset(s)[y]
  {
    if s != [] {
      var init := s[..|s| - 1];
      KeyFilterMultiplicity(init, key, y);
      assert s == init + [s[|s| - 1]];
    }
  }

  /** Grouping: `(acc[key(x)] ||= []).push(x)` folded over `s`. */
  function GroupBy<T(!new), K(!new)>(s: seq<T>, key: T -> K): (r: ODict<K, seq<T>>)
  {
    if s == [] then EmptyDict()
    else
      var d := GroupBy(s[..|s| - 1], key);
      var k := key(s[|s| - 1]);
      d.Put(k, d.Get(k, []) + [s[|s| - 1]])
  }

  lemma {:induction false} GroupByValid<T(!new), K(!new)>(s: seq<T>, key: T -> K)
    ensures GroupBy(s, key).Valid()
  {
    if s != [] {
      GroupByValid(s[..|s| - 1], key);
      var d := GroupBy(s[..|s| - 1], key);
      var k := key(s[|s| - 1]);
      d.PutValid(k, d.Get(k, []) + [s[|s| - 1]]);
    }
  }

  /** Each group holds exactly the elements with its key, in input order. */
  lemma {:induction false} GroupByEntry<T(!new), K(!new)>(s: seq<T>, key: T -> K, k: K)
    ensures GroupBy(s, key).Get(k, []) == KeyFilter(s, key, k)
    ensures k in GroupBy(s, key).entries <==> KeyCount(s, key, k) > 0
  {
    if s != [] {
      GroupByEntry(s[..|s| - 1], key, k);
    }
  }

  /** The groups together hold every element once: their sizes add up to `|s|`. */
  lemma {:induction false} GroupBySum<T(!new), K(!new)>(s: seq<T>, key: T -> K)
    ensures SumOver(GroupBy(s, key).keys, GroupBy(s, key).entries, SizeOf<T>) == |s|
  {
    if s != [] {
      var s' := s[..|s| - 1];
      GroupBySum(s', key);
      GroupByValid(s', key);
      var d := GroupBy(s', key);
      var k := key(s[|s| - 1]);
      var r := GroupBy(s, key);
      assert r == d.Put(k, d.Get(k, []) + [s[|s| - 1]]);
      if k in d.entries {
        var g := d.entries[k] + [s[|s| - 1]];
        assert r.keys == d.keys && r.entries == d.entries[k := g];
        SumOverUpdate(d.keys, d.entries, k, g, SizeOf<T>);
      } else {
        assert d.Get(k, []) + [s[|s| - 1]] == [s[|s| - 1]];
        assert r.keys == d.keys + [k] && r.entries == d.entries[k := [s[|s| - 1]]];
        SumOverAppend(d.keys, d.entries, k, [s[|s| - 1]], SizeOf<T>);
      }
    }
  }

  /** The keys of `GroupBy` are the distinct keys in first-occurrence order. */
  lemma {:induction false} GroupByKeys<T(!new), K(!new)>(s: seq<T>, key: T -> K)
    ensures GroupBy(s, key).keys == Distinct(seq(|s|, i requires 0 <= i < |s| => key(s[i])))
  {
    if s != [] {
      var s' := s[..|s| - 1];
      GroupByKeys(s', key);
      GroupByValid(s', key);
      var ks := seq(|s|, i requires 0 <= i < |s| => key(s[i]));
      var ks' := seq(|s'|, i requires 0 <= i < |s'| => key(s'[i]));
      assert ks[..|ks| - 1] == ks';
      var d := GroupBy(s', key);
      var k := key(s[|s| - 1]);
      assert k in d.entries <==> k in Distinct(ks');
    }
  }

  /** The keys of `GroupBy` are the distinct projected keys. */
  lemma GroupByProjectKeys<T(!new), K(!new)>(s: seq<T>, key: T -> K)
    ensures GroupBy(s, key).keys == Distinct(Project(s, key))
  {
    GroupByKeys(s, key);
    ProjectIndex(s, key);
    assert seq(|s|, i requires 0 <= i < |s| => key(s[i])) == Project(s, key);
  }

  /** A key has a group exactly when an element carries it. */
  lemma GroupByHas<T(!new), K(!new)>(s: seq<T>, key: T -> K)
    ensures forall k :: k in GroupBy(s, key).entries <==> exists i | 0 <= i < |s| :: key(s[i]) == k
  {
    GroupByValid(s, key);
    GroupByProjectKeys(s, key);
    DistinctKeysFacts(s, key);
  }
}
