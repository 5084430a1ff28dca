/** The list operations the source chains on arrays: `filter`, a stable
    `sort` with a descending comparator `(a, b) => key(b) - key(a)`, and
    `slice(0, n)`. */
module Sorting {
  import opened Wrappers

  /** Keys do not increase from left to right. */
  predicate NonIncreasing<T>(s: seq<T>, key: T -> int) {
    forall i, j :: 0 <= i < j < |s| ==> key(s[i]) >= key(s[j])
  }

  /** `s.filter(p)`. */
  function Filter<T>(s: seq<T>, p: T -> bool): (r: seq<T>)
    ensures |r| <= |s|
    ensures forall i :: 0 <= i < |r| ==> p(r[i])
    ensures multiset(r) <= multiset(s)
    ensures forall i :: 0 <= i < |s| && p(s[i]) ==> s[i] in r
    ensures (forall i :: 0 <= i < |s| ==> p(s[i])) ==> r == s
  {
    if s == [] then []
    else
      assert s == [s[0]] + s[1..];
      (if p(s[0]) then [s[0]] else []) + Filter(s[1..], p)
  }

  /** An element survives the filter exactly when it is in the list and
      passes the test. */
  lemma {:induction false} FilterMembers<T>(s: seq<T>, p: T -> bool)
    ensures forall x :: x in Filter(s, p) <==> x in s && p(x)
  {
    if s != [] {
      FilterMembers(s[1..], p);
      assert s == [s[0]] + s[1..];
    }
  }

  /** Places `x` before the first element whose key is not greater than its
      own, so that among equal keys earlier elements stay first. */
  function Insert<T>(x: T, s: seq<T>, key: T -> int): (r: seq<T>)
    ensures multiset(r) == multiset(s) + multiset{x}
    ensures |r| == |s| + 1
  {
    if s == [] || key(x) >= key(s[0]) then [x] + s
    else
      assert s == [s[0]] + s[1..];
      [s[0]] + Insert(x, s[1..], key)
  }

  /** Inserting an element no greater than a bound into a list no greater
      than it keeps the list under the bound. */
  lemma {:induction false} InsertBounded<T>(x: T, s: seq<T>, key: T -> int, b: int)
    requires key(x) <= b
    requires forall i :: 0 <= i < |s| ==> key(s[i]) <= b
    ensures forall i :: 0 <= i < |Insert(x, s, key)| ==> key(Insert(x, s, key)[i]) <= b
  {
    if s != [] && key(x) < key(s[0]) {
      InsertBounded(x, s[1..], key, b);
    }
  }

  /** Insertion into a sorted list keeps it sorted. */
  lemma {:induction false} InsertSorted<T>(x: T, s: seq<T>, key: T -> int)
    requires NonIncreasing(s, key)
    ensures NonIncreasing(Insert(x, s, key), key)
  {
    if s != [] && key(x) < key(s[0]) {
      var rest := Insert(x, s[1..], key);
      InsertSorted(x, s[1..], key);
      InsertBounded(x, s[1..], key, key(s[0]));
      assert Insert(x, s, key) == [s[0]] + rest;
    }
  }

  /** `s.sort((a, b) => key(b) - key(a))`, the stable insertion order. */
  function SortDesc<T>(s: seq<T>, key: T -> int): (r: seq<T>)
    ensures multiset(r) == multiset(s)
    ensures |r| == |s|
    ensures NonIncreasing(r, key)
  {
    if s == [] then []
    else
      assert s == [s[0]] + s[1..];
      InsertSorted(s[0], SortDesc(s[1..], key), key);
      Insert(s[0], SortDesc(s[1..], key), key)
  }

  /** The elements whose key is `k`. */
  function KeyIs<T>(key: T -> int, k: int): T -> bool {
    (x: T) => key(x) == k
  }

  lemma FilterCons<T>(x: T, t: seq<T>, p: T -> bool)
    ensures Filter([x] + t, p) == (if p(x) then [x] else []) + Filter(t, p)
  {
    assert ([x] + t)[1..] == t;
  }

  /** Insertion puts `x` ahead of every element with its key, and moves
      no other element past one with the same key. */
  lemma {:induction false} InsertStable<T>(x: T, t: seq<T>, key: T -> int, k: int)
    ensures key(x) == k ==> Filter(Insert(x, t, key), KeyIs(key, k)) == [x] + Filter(t, KeyIs(key, k))
    ensures key(x) != k ==> Filter(Insert(x, t, key), KeyIs(key, k)) == Filter(t, KeyIs(key, k))
  {
    var p := KeyIs(key, k);
    if t == [] || key(x) >= key(t[0]) {
      assert Insert(x, t, key) == [x] + t;
      FilterCons(x, t, p);
      assert Filter(Insert(x, t, key), p) == (if p(x) then [x] else []) + Filter(t, p);
    } else {
      var rest := Insert(x, t[1..], key);
      var head := if p(t[0]) then [t[0]] else [];
      var tail := Filter(t[1..], p);
      assert Insert(x, t, key) == [t[0]] + rest;
      FilterCons(t[0], rest, p);
      InsertStable(x, t[1..], key, k);
      assert Filter(t, p) == head + tail;
      if key(x) == k {
        assert head == [];
        assert Filter(Insert(x, t, key), p) == [x] + tail;
        assert Filter(t, p) == tail;
        assert Filter(Insert(x, t, key), p) == [x] + Filter(t, p);
      } else {
        assert Filter(rest, p) == tail;
        assert Filter([t[0]] + rest, p) == head + tail;
        assert Filter(Insert(x, t, key), p) == Filter(t, p);
      }
    }
  }

  /** The sort is stable, as `Array.prototype.sort` is: the elements of
      any one key come out in the order they went in. */
  lemma {:induction false} SortDescStable<T>(s: seq<T>, key: T -> int, k: int)
    ensures Filter(SortDesc(s, key), KeyIs(key, k)) == Filter(s, KeyIs(key, k))
  {
    if s != [] {
      assert s == [s[0]] + s[1..];
      SortDescStable(s[1..], key, k);
      InsertStable(s[0], SortDesc(s[1..], key), key, k);
      FilterCons(s[0], s[1..], KeyIs(key, k));
    }
  }

  /** Sorting neither adds nor loses an element. */
  lemma SortDescMembers<T>(s: seq<T>, key: T -> int)
    ensures forall x :: x in SortDesc(s, key) <==> x in s
  {
    var r := SortDesc(s, key);
    forall x ensures x in r <==> x in s {
      assert x in r <==> x in multiset(r);
      assert x in s <==> x in multiset(s);
    }
  }

  /** `s.slice(0, n)`. */
  function Take<T>(s: seq<T>, n: nat): (r: seq<T>)
    ensures |r| <= n && |r| <= |s|
    ensures |s| <= n ==> r == s
    ensures r <= s
  {
    if |s| <= n then s else s[..n]
  }

  lemma TakeNonIncreasing<T>(s: seq<T>, n: nat, key: T -> int)
    requires NonIncreasing(s, key)
    ensures NonIncreasing(Take(s, n), key)
  {
  }

  lemma TakeSubMultiset<T>(s: seq<T>, n: nat)
    ensures multiset(Take(s, n)) <= multiset(s)
  {
    if |s| > n {
      assert s == s[..n] + s[n..];
    }
  }

  /** `s.filter(p).sort((a, b) => key(b) - key(a)).slice(0, n)`: the `n`
      elements passing the test with the greatest keys. */
  function Top<T>(s: seq<T>, p: T -> bool, key: T -> int, n: nat): seq<T> {
    Take(SortDesc(Filter(s, p), key), n)
  }

  /** Cutting a sorted list: an element of the list that the cut leaves
      out has a key no greater than any element it keeps. */
  lemma TakeLeavesSmaller<T>(t: seq<T>, n: nat, key: T -> int, x: T)
    requires NonIncreasing(t, key)
    requires x in t && x !in Take(t, n)
    ensures forall j :: 0 <= j < |Take(t, n)| ==> key(x) <= key(Take(t, n)[j])
  {
    var k :| 0 <= k < |t| && t[k] == x;
    assert |t| > n && Take(t, n) == t[..n];
  }

  /** The top list holds `min(n, passing)` passing elements of `s`, in
      non-increasing key order; all of them when they fit, and otherwise a
      passing element left out has a key no greater than any kept one. */
  lemma TopSpec<T>(s: seq<T>, p: T -> bool, key: T -> int, n: nat)
    ensures |Top(s, p, key, n)| == if |Filter(s, p)| <= n then |Filter(s, p)| else n
    ensures forall i :: 0 <= i < |Top(s, p, key, n)| ==> p(Top(s, p, key, n)[i]) && Top(s, p, key, n)[i] in s
    ensures NonIncreasing(Top(s, p, key, n), key)
    ensures multiset(Top(s, p, key, n)) <= multiset(Filter(s, p)) <= multiset(s)
    ensures |Filter(s, p)| <= n ==> multiset(Top(s, p, key, n)) == multiset(Filter(s, p))
    ensures forall i, j :: 0 <= i < |s| && p(s[i]) && s[i] !in Top(s, p, key, n) && 0 <= j < |Top(s, p, key, n)| ==>
              key(s[i]) <= key(Top(s, p, key, n)[j])
  {
    var f := Filter(s, p);
    var t := SortDesc(f, key);
    var r := Top(s, p, key, n);
    assert r == Take(t, n);
    TakeSubMultiset(t, n);
    TakeNonIncreasing(t, n, key);
    FilterMembers(s, p);
    SortDescMembers(f, key);
    forall i | 0 <= i < |r| ensures p(r[i]) && r[i] in s {
      assert r[i] in t;
    }
    forall i | 0 <= i < |s| && p(s[i]) && s[i] !in r
      ensures forall j :: 0 <= j < |r| ==> key(s[i]) <= key(r[j])
    {
      assert s[i] in t;
      TakeLeavesSmaller(t, n, key, s[i]);
    }
  }

  /** Two equal elements at distinct positions make a count of two. */
  lemma RepeatedCount<T>(s: seq<T>, i: nat, j: nat)
    requires i < j < |s| && s[i] == s[j]
    ensures multiset(s)[s[i]] >= 2
  {
    assert s == s[..i] + [s[i]] + s[i + 1..j] + [s[j]] + s[j + 1..];
  }

  /** The values `f` yields on `s`, in order: a loop that pushes
      `f(x).value` for every `x` where `f(x)` is present. */
  function FilterMap<T, U>(s: seq<T>, f: T -> Option<U>): (r: seq<U>)
    decreases |s|
  {
    if s == [] then []
    else FilterMap(s[..|s| - 1], f) + (match f(s[|s| - 1]) case Some(u) => [u] case None => [])
  }

  /** At most one value per element; a value is collected exactly when some
      element yields it. */
  lemma {:induction false} FilterMapSpec<T, U>(s: seq<T>, f: T -> Option<U>)
    ensures |FilterMap(s, f)| <= |s|
    ensures forall u :: u in FilterMap(s, f) ==> exists i :: 0 <= i < |s| && f(s[i]) == Some(u)
    ensures forall u, i :: 0 <= i < |s| && f(s[i]) == Some(u) ==> u in FilterMap(s, f)
    decreases |s|
  {
    if s != [] {
      var n := |s| - 1;
      var init := s[..n];
      FilterMapSpec(init, f);
      forall u | u in FilterMap(s, f)
        ensures exists i :: 0 <= i < |s| && f(s[i]) == Some(u)
      {
        var tail := match f(s[n]) case Some(v) => [v] case None => [];
        assert FilterMap(s, f) == FilterMap(init, f) + tail;
        if u in FilterMap(init, f) {
          var i :| 0 <= i < |init| && f(init[i]) == Some(u);
          assert s[i] == init[i];
        } else {
          assert f(s[n]) == Some(u);
        }
      }
      forall u, i | 0 <= i < |s| && f(s[i]) == Some(u)
        ensures u in FilterMap(s, f)
      {
        if i < n {
          assert s[i] == init[i];
        }
      }
    }
  }
}
