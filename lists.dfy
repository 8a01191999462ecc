/**
 * The array operations the pages build their new state with: `Array.prototype.map`
 * and `Array.prototype.filter`, and what it means for a filtered list to keep
 * the original order.
 */
module Lists {

  /** `s.map(f)`. */
  function Map<T, U>(s: seq<T>, f: T -> U): (r: seq<U>)
    ensures |r| == |s|
    ensures forall i :: 0 <= i < |s| ==> r[i] == f(s[i])
  {
    if s == [] then [] else [f(s[0])] + Map(s[1..], f)
  }

  /** `r` is obtained from `s` by deleting elements, keeping the order of the rest. */
  predicate Subsequence<T(==)>(r: seq<T>, s: seq<T>)
    decreases |s|
  {
    r == [] || (s != [] && ((r[0] == s[0] && Subsequence(r[1..], s[1..])) || Subsequence(r, s[1..])))
  }

  /** `s.filter(keep)`. */
  function Filter<T>(s: seq<T>, keep: T -> bool): (r: seq<T>)
    ensures forall i :: 0 <= i < |r| ==> r[i] in s && keep(r[i])
    ensures forall i :: 0 <= i < |s| && keep(s[i]) ==> s[i] in r
    ensures |r| <= |s|
  {
    if s == [] then []
    else if keep(s[0]) then [s[0]] + Filter(s[1..], keep)
    else Filter(s[1..], keep)
  }

  /** Filtering keeps the surviving elements in their original order. */
  lemma {:induction false} FilterIsSubsequence<T>(s: seq<T>, keep: T -> bool)
    ensures Subsequence(Filter(s, keep), s)
  {
    if s != [] {
      FilterIsSubsequence(s[1..], keep);
      var r := Filter(s, keep);
      if keep(s[0]) {
        assert r[0] == s[0] && r[1..] == Filter(s[1..], keep);
      }
    }
  }

  /** Filtering keeps every copy of a kept value and no copy of a dropped one. */
  lemma {:induction false} FilterCounts<T>(s: seq<T>, keep: T -> bool, x: T)
    ensures multiset(Filter(s, keep))[x] == if keep(x) then multiset(s)[x] else 0
  {
    if s != [] {
      FilterCounts(s[1..], keep, x);
      assert s == [s[0]] + s[1..];
      assert multiset(s) == multiset{s[0]} + multiset(s[1..]);
    }
  }

  /** When every element passes, filtering returns the list itself. */
  lemma {:induction false} FilterKeepsAll<T>(s: seq<T>, keep: T -> bool)
    requires forall i :: 0 <= i < |s| ==> keep(s[i])
    ensures Filter(s, keep) == s
  {
    if s != [] {
      FilterKeepsAll(s[1..], keep);
      assert s == [s[0]] + s[1..];
    }
  }

  /** When some element fails, the result is strictly shorter. */
  lemma {:induction false} FilterDropsFailing<T>(s: seq<T>, keep: T -> bool, i: int)
    requires 0 <= i < |s| && !keep(s[i])
    ensures |Filter(s, keep)| < |s|
  {
    if i > 0 {
      FilterDropsFailing(s[1..], keep, i - 1);
    } else {
      assert |Filter(s[1..], keep)| <= |s[1..]|;
    }
  }

  /** `s.map(x => key(x) === k ? f(x) : x)`: the records with key `k` are rewritten, the rest kept, in place. */
  function ReplaceKey<T>(s: seq<T>, key: T -> int, k: int, f: T -> T): (r: seq<T>)
    ensures |r| == |s|
    ensures forall i :: 0 <= i < |s| && key(s[i]) != k ==> r[i] == s[i]
    ensures forall i :: 0 <= i < |s| && key(s[i]) == k ==> r[i] == f(s[i])
  {
    Map(s, x => if key(x) == k then f(x) else x)
  }

  /** `s.filter(x => key(x) !== k)`: every record with key `k` is removed, the others kept in order. */
  function WithoutKey<T>(s: seq<T>, key: T -> int, k: int): (r: seq<T>)
    ensures forall i :: 0 <= i < |r| ==> key(r[i]) != k && r[i] in s
    ensures forall i :: 0 <= i < |s| && key(s[i]) != k ==> s[i] in r
    ensures Subsequence(r, s)
    ensures forall i :: 0 <= i < |s| && key(s[i]) != k ==> multiset(r)[s[i]] == multiset(s)[s[i]]
    ensures (forall i :: 0 <= i < |s| ==> key(s[i]) != k) ==> r == s
  {
    var keep := x => key(x) != k;
    FilterIsSubsequence(s, keep);
    forall i | 0 <= i < |s| && key(s[i]) != k
      ensures multiset(Filter(s, keep))[s[i]] == multiset(s)[s[i]]
    {
      FilterCounts(s, keep, s[i]);
    }
    if forall i :: 0 <= i < |s| ==> keep(s[i]) then FilterKeepsAll(s, keep); Filter(s, keep)
    else Filter(s, keep)
  }

  /** Filtering with two tests that agree on every element gives the same list. */
  lemma {:induction false} FilterSameTests<T>(s: seq<T>, f: T -> bool, g: T -> bool)
    requires forall i :: 0 <= i < |s| ==> f(s[i]) == g(s[i])
    ensures Filter(s, f) == Filter(s, g)
  {
    if s != [] {
      FilterSameTests(s[1..], f, g);
    }
  }

  /** The keys strictly increase along the list. */
  predicate KeysIncreasing<T>(s: seq<T>, key: T -> int)
  {
    forall i, j :: 0 <= i < j < |s| ==> key(s[i]) < key(s[j])
  }

  /** `(s[s.length - 1]?.id || 0) + 1`: one more than the last record's key, or 1 for an empty list. */
  function NextId<T>(s: seq<T>, key: T -> int): (id: int)
    ensures s == [] ==> id == 1
    ensures s != [] ==> id == key(s[|s| - 1]) + 1
  {
    if s == [] || key(s[|s| - 1]) == 0 then 0 + 1 else key(s[|s| - 1]) + 1
  }

  /** On a list with increasing keys the next id is larger than every key, hence unused. */
  lemma NextIdFresh<T>(s: seq<T>, key: T -> int)
    requires KeysIncreasing(s, key)
    ensures forall i :: 0 <= i < |s| ==> key(s[i]) < NextId(s, key)
  {
  }

  /** Appending the record made with the next id keeps the keys increasing. */
  lemma NextIdKeepsIncreasing<T>(s: seq<T>, key: T -> int, x: T)
    requires KeysIncreasing(s, key) && key(x) == NextId(s, key)
    ensures KeysIncreasing(s + [x], key)
  {
    NextIdFresh(s, key);
  }
}
