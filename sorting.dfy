/**
 * `Array.prototype.filter` and `Array.prototype.sort` with a numeric
 * comparator `(a, b) => key(a) - key(b)`, on sequences. The sort is an
 * insertion sort that puts an element before the first one whose key is not
 * smaller, so elements with equal keys keep their input order, as the
 * language's sort does.
 */
module Sorting {
  predicate SortedBy<T>(s: seq<T>, key: T -> int) {
    forall i, j :: 0 <= i < j < |s| ==> key(s[i]) <= key(s[j])
  }

  /** `filter(keep)`: the kept elements, in order. */
  function FilterBy<T(!new)>(s: seq<T>, keep: T -> bool): (r: seq<T>)
    ensures |r| <= |s|
    ensures forall x :: x in r <==> x in s && keep(x)
    ensures forall i :: 0 <= i < |r| ==> keep(r[i])
  {
    if s == [] then []
    else if keep(s[0]) then [s[0]] + FilterBy(s[1..], keep)
    else FilterBy(s[1..], keep)
  }

  /** Filtering keeps exactly the elements that pass, each as often as it
      occurs in the input. */
  lemma {:induction false} FilterByCounts<T(!new)>(s: seq<T>, keep: T -> bool, x: T)
    ensures multiset(FilterBy(s, keep))[x] == if keep(x) then multiset(s)[x] else 0
  {
    if s != [] {
      FilterByCounts(s[1..], keep, x);
      assert s == [s[0]] + s[1..];
    }
  }

  /** Filtering one more element keeps it at the end exactly when it passes. */
  lemma {:induction false} FilterBySnoc<T(!new)>(s: seq<T>, x: T, keep: T -> bool)
    ensures FilterBy(s + [x], keep) == FilterBy(s, keep) + (if keep(x) then [x] else [])
  {
    if s == [] {
      assert [x][1..] == [];
    } else {
      assert (s + [x])[0] == s[0];
      assert (s + [x])[1..] == s[1..] + [x];
      FilterBySnoc(s[1..], x, keep);
    }
  }

  /** A sorted sequence stays sorted under a new first element whose key
      is at most the old first one's. */
  lemma SortedCons<T>(a: T, s: seq<T>, key: T -> int)
    requires SortedBy(s, key) && (s != [] ==> key(a) <= key(s[0]))
    ensures SortedBy([a] + s, key)
  {
    var r := [a] + s;
    forall i, j | 0 <= i < j < |r| ensures key(r[i]) <= key(r[j]) {
      if i == 0 {
        assert r[j] == s[j - 1];
        assert key(s[0]) <= key(s[j - 1]);
      } else {
        assert r[i] == s[i - 1] && r[j] == s[j - 1];
      }
    }
  }

  /** Inserts `x` before the first element whose key is at least its own. */
  function Insert<T>(x: T, s: seq<T>, key: T -> int): (r: seq<T>)
    requires SortedBy(s, key)
    ensures SortedBy(r, key)
    ensures multiset(r) == multiset(s) + multiset{x}
    ensures r[0] == x || (s != [] && r[0] == s[0])
  {
    if s == [] then [x]
    else if key(x) <= key(s[0]) then
      SortedCons(x, s, key);
      [x] + s
    else
      var rest := Insert(x, s[1..], key);
      assert s == [s[0]] + s[1..];
      SortedCons(s[0], rest, key);
      [s[0]] + rest
  }

  /** `sort((a, b) => key(a) - key(b))`: ascending and a permutation. */
  function SortBy<T>(s: seq<T>, key: T -> int): (r: seq<T>)
    ensures SortedBy(r, key)
    ensures multiset(r) == multiset(s)
  {
    if s == [] then []
    else
      assert s == [s[0]] + s[1..];
      Insert(s[0], SortBy(s[1..], key), key)
  }
}
