/** `Array.prototype.filter`, `find` and `sort` on sequences, with the facts the pages rely on:
    a filter keeps exactly the matching elements in their order, filters with exclusive
    predicates partition a list, and sorting yields an ordered permutation. */
module Seqs {
  import opened Wrappers

  /** `s.filter(p)` */
  function Filter<T>(s: seq<T>, p: T -> bool): (r: seq<T>)
    ensures |r| <= |s|
    ensures forall i :: 0 <= i < |r| ==> p(r[i])
    ensures forall i :: 0 <= i < |r| ==> r[i] in s
    ensures forall i :: 0 <= i < |s| && p(s[i]) ==> s[i] in r
  {
    if s == [] then [] else (if p(s[0]) then [s[0]] else []) + Filter(s[1..], p)
  }

  /** `r` is `s` with some elements left out and the rest in their original order. */
  ghost predicate IsSubsequence<T>(r: seq<T>, s: seq<T>)
    decreases |s|
  {
    if r == [] then true
    else if s == [] then false
    else (r[0] == s[0] && IsSubsequence(r[1..], s[1..])) || IsSubsequence(r, s[1..])
  }

  lemma {:induction false} FilterIsSubsequence<T>(s: seq<T>, p: T -> bool)
    ensures IsSubsequence(Filter(s, p), s)
  {
    if s != [] {
      FilterIsSubsequence(s[1..], p);
      var r := Filter(s, p);
      if p(s[0]) {
        assert r[0] == s[0] && r[1..] == Filter(s[1..], p);
      } else {
        assert r == Filter(s[1..], p);
      }
    }
  }

  /** A filter with a predicate that holds of every element keeps the whole list. */
  lemma {:induction false} FilterAll<T>(s: seq<T>, p: T -> bool)
    requires forall i :: 0 <= i < |s| ==> p(s[i])
    ensures Filter(s, p) == s
  {
    if s != [] {
      FilterAll(s[1..], p);
    }
  }

  /** A filter with a predicate that holds of no element keeps nothing. */
  lemma {:induction false} FilterNone<T>(s: seq<T>, p: T -> bool)
    requires forall i :: 0 <= i < |s| ==> !p(s[i])
    ensures Filter(s, p) == []
  {
    if s != [] {
      FilterNone(s[1..], p);
    }
  }

  /** Two predicates that never hold together and between them cover `c` split the elements
      selected by `c`: every element of `Filter(s, c)` is in exactly one of the two filters. */
  lemma {:induction false} FilterUnionMultiset<T>(s: seq<T>, a: T -> bool, b: T -> bool, c: T -> bool)
    requires forall i :: 0 <= i < |s| ==> (c(s[i]) <==> a(s[i]) || b(s[i])) && !(a(s[i]) && b(s[i]))
    ensures multiset(Filter(s, a)) + multiset(Filter(s, b)) == multiset(Filter(s, c))
  {
    if s != [] {
      FilterUnionMultiset(s[1..], a, b, c);
      var x, t := s[0], s[1..];
      if a(x) {
        assert Filter(s, a) == [x] + Filter(t, a) && Filter(s, b) == Filter(t, b);
        assert Filter(s, c) == [x] + Filter(t, c);
      } else if b(x) {
        assert Filter(s, a) == Filter(t, a) && Filter(s, b) == [x] + Filter(t, b);
        assert Filter(s, c) == [x] + Filter(t, c);
      } else {
        assert Filter(s, a) == Filter(t, a) && Filter(s, b) == Filter(t, b);
        assert Filter(s, c) == Filter(t, c);
      }
    }
  }

  lemma FilterUnion<T>(s: seq<T>, a: T -> bool, b: T -> bool, c: T -> bool)
    requires forall i :: 0 <= i < |s| ==> (c(s[i]) <==> a(s[i]) || b(s[i])) && !(a(s[i]) && b(s[i]))
    ensures multiset(Filter(s, a)) + multiset(Filter(s, b)) == multiset(Filter(s, c))
    ensures |Filter(s, a)| + |Filter(s, b)| == |Filter(s, c)|
  {
    FilterUnionMultiset(s, a, b, c);
    assert |multiset(Filter(s, a)) + multiset(Filter(s, b))| == |multiset(Filter(s, c))|;
  }

  lemma {:induction false} FilterConcat<T>(s: seq<T>, t: seq<T>, p: T -> bool)
    ensures Filter(s + t, p) == Filter(s, p) + Filter(t, p)
  {
    if s != [] {
      assert (s + t)[1..] == s[1..] + t;
      FilterConcat(s[1..], t, p);
    } else {
      assert s + t == t;
    }
  }

  /** The index `s.findIndex(p)` would return, or `None` for -1. */
  function FindIndex<T>(s: seq<T>, p: T -> bool): (r: Option<nat>)
    ensures r.Some? ==> r.value < |s| && p(s[r.value])
    ensures r.Some? ==> forall j :: 0 <= j < r.value ==> !p(s[j])
    ensures r.None? ==> forall j :: 0 <= j < |s| ==> !p(s[j])
  {
    if s == [] then None
    else if p(s[0]) then Some(0)
    else match FindIndex(s[1..], p)
      case None => None
      case Some(i) => Some(i + 1)
  }

  /** The first index satisfying `p` is the one found. */
  lemma FindIndexAt<T>(s: seq<T>, p: T -> bool, k: nat)
    requires k < |s| && p(s[k]) && forall j :: 0 <= j < k ==> !p(s[j])
    ensures FindIndex(s, p) == Some(k)
  {
  }

  /** `s.find(p)`: the first element satisfying `p`, or `None` for `undefined`. */
  function Find<T>(s: seq<T>, p: T -> bool): (r: Option<T>)
    ensures r.Some? <==> exists i :: 0 <= i < |s| && p(s[i])
    ensures r.Some? ==> exists i :: 0 <= i < |s| && s[i] == r.value && p(s[i])
                                    && forall j :: 0 <= j < i ==> !p(s[j])
  {
    match FindIndex(s, p)
    case None => None
    case Some(i) => Some(s[i])
  }

  /** `find` on a list with a head looks at the head first. */
  lemma FindCons<T>(x: T, s: seq<T>, p: T -> bool)
    ensures Find([x] + s, p) == if p(x) then Some(x) else Find(s, p)
  {
    assert ([x] + s)[0] == x && ([x] + s)[1..] == s;
  }

  /** Every element's key is at most the next one's. */
  predicate SortedBy<T>(s: seq<T>, key: T -> int) {
    forall i, j :: 0 <= i < j < |s| ==> key(s[i]) <= key(s[j])
  }

  /** `x` placed before the first element whose key is not smaller than its own. */
  function InsertBy<T>(x: T, s: seq<T>, key: T -> int): (r: seq<T>)
    requires SortedBy(s, key)
    ensures SortedBy(r, key)
    ensures multiset(r) == multiset(s) + multiset{x}
  {
    if s == [] then [x]
    else if key(x) <= key(s[0]) then [x] + s
    else
      var rest := InsertBy(x, s[1..], key);
      assert multiset(s) == multiset{s[0]} + multiset(s[1..]) by { assert s == [s[0]] + s[1..]; }
      BoundedByHead(s[0], x, s[1..], rest, key);
      [s[0]] + rest
  }

  /** A list made of `x` and the elements of `t` has no key below a bound of both. */
  lemma BoundedByHead<T>(h: T, x: T, t: seq<T>, r: seq<T>, key: T -> int)
    requires multiset(r) == multiset(t) + multiset{x}
    requires key(h) <= key(x) && forall k :: 0 <= k < |t| ==> key(h) <= key(t[k])
    ensures forall k :: 0 <= k < |r| ==> key(h) <= key(r[k])
  {
    forall k | 0 <= k < |r| ensures key(h) <= key(r[k]) {
      assert r[k] in multiset(r);
      assert r[k] == x || r[k] in multiset(t);
    }
  }

  /** `s.sort((a, b) => key(a) - key(b))` as a stable insertion sort. */
  function SortBy<T>(s: seq<T>, key: T -> int): (r: seq<T>)
    ensures SortedBy(r, key)
    ensures multiset(r) == multiset(s)
    ensures |r| == |s|
  {
    if s == [] then []
    else
      assert s == [s[0]] + s[1..];
      var r := InsertBy(s[0], SortBy(s[1..], key), key);
      assert |r| == |multiset(r)| == |s|;
      r
  }

  /** Holds of the elements whose key is `k`. */
  function HasKey<T>(key: T -> int, k: int): T -> bool {
    x => key(x) == k
  }

  /** Inserting `x` puts it ahead of every element of `s` with the same key. */
  lemma {:induction false} InsertByKeepsEqualKeysInOrder<T>(x: T, s: seq<T>, key: T -> int, k: int)
    requires SortedBy(s, key)
    ensures Filter(InsertBy(x, s, key), HasKey(key, k)) == Filter([x], HasKey(key, k)) + Filter(s, HasKey(key, k))
  {
    var p := HasKey(key, k);
    if s == [] {
      assert InsertBy(x, s, key) == [x];
    } else if key(x) <= key(s[0]) {
      assert InsertBy(x, s, key) == [x] + s;
      FilterConcat([x], s, p);
    } else {
      var h, t := s[0], s[1..];
      assert SortedBy(t, key);
      InsertByKeepsEqualKeysInOrder(x, t, key, k);
      var rest := InsertBy(x, t, key);
      assert InsertBy(x, s, key) == [h] + rest;
      FilterConcat([h], rest, p);
      assert s == [h] + t;
      FilterConcat([h], t, p);
      assert [x][1..] == [] && [h][1..] == [];
      if p(x) {
        assert !p(h);
        assert Filter([h], p) == [];
        assert Filter(InsertBy(x, s, key), p) == Filter(rest, p);
        assert Filter(s, p) == Filter(t, p);
      } else {
        assert Filter([x], p) == [];
        assert Filter(rest, p) == Filter(t, p);
      }
    }
  }

  /** The sort is stable: the elements sharing any one key keep their original order. */
  lemma {:induction false} SortByIsStable<T>(s: seq<T>, key: T -> int, k: int)
    ensures Filter(SortBy(s, key), HasKey(key, k)) == Filter(s, HasKey(key, k))
  {
    if s != [] {
      SortByIsStable(s[1..], key, k);
      InsertByKeepsEqualKeysInOrder(s[0], SortBy(s[1..], key), key, k);
      assert s == [s[0]] + s[1..];
      FilterConcat([s[0]], s[1..], HasKey(key, k));
    }
  }

  /** Filtering a sorted list keeps it sorted. */
  lemma {:induction false} FilterKeepsSorted<T>(s: seq<T>, p: T -> bool, key: T -> int)
    requires SortedBy(s, key)
    ensures SortedBy(Filter(s, p), key)
  {
    if s != [] {
      FilterKeepsSorted(s[1..], p, key);
      var rest := Filter(s[1..], p);
      forall k | 0 <= k < |rest| ensures key(s[0]) <= key(rest[k]) {
        assert rest[k] in s[1..];
      }
    }
  }

  function Count<T>(s: seq<T>, p: T -> bool): (n: nat)
    ensures n == |Filter(s, p)|
  {
    if s == [] then 0 else (if p(s[0]) then 1 else 0) + Count(s[1..], p)
  }
}
