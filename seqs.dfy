/**
 * The array built-ins the record store is written with (`find`, `findIndex`,
 * `filter`, `reduce`, the stable `sort`), as functions on sequences, with
 * the facts about them that the rest of the model relies on.
 */
module Seqs {
  import opened Wrappers

  /** `Array.prototype.findIndex`: the first index whose element satisfies `p`, or -1. */
  function FindIndex<T>(s: seq<T>, p: T -> bool): (i: int)
    ensures -1 <= i < |s|
    ensures 0 <= i ==> p(s[i]) && forall j :: 0 <= j < i ==> !p(s[j])
    ensures i == -1 <==> forall j :: 0 <= j < |s| ==> !p(s[j])
  {
    if |s| == 0 then -1
    else if p(s[0]) then 0
    else
      var k := FindIndex(s[1..], p);
      if k == -1 then -1 else k + 1
  }

  /** `Array.prototype.find`, with `undefined` as `None`. */
  function Find<T>(s: seq<T>, p: T -> bool): (r: Option<T>)
    ensures r.None? <==> forall j :: 0 <= j < |s| ==> !p(s[j])
    ensures r.Some? ==> exists i :: 0 <= i < |s| && s[i] == r.value && p(s[i]) && forall j :: 0 <= j < i ==> !p(s[j])
  {
    var i := FindIndex(s, p);
    if i == -1 then None else Some(s[i])
  }

  /** `Array.prototype.filter`. */
  function Filter<T>(s: seq<T>, p: T -> bool): (r: seq<T>)
    ensures |r| <= |s|
    ensures forall j :: 0 <= j < |r| ==> p(r[j]) && r[j] in s
    ensures forall j :: 0 <= j < |s| && p(s[j]) ==> s[j] in r
  {
    if |s| == 0 then []
    else
      assert s == [s[0]] + s[1..];
      (if p(s[0]) then [s[0]] else []) + Filter(s[1..], p)
  }

  /** Filtering keeps exactly the elements that satisfy the predicate, each as often as it occurs. */
  lemma {:induction false} FilterMultiset<T>(s: seq<T>, p: T -> bool)
    ensures multiset(Filter(s, p)) <= multiset(s)
  {
    if |s| > 0 {
      FilterMultiset(s[1..], p);
      assert s == [s[0]] + s[1..];
    }
  }

  /** Filtering keeps the order of the input: it distributes over concatenation. */
  lemma {:induction false} FilterAppend<T>(a: seq<T>, b: seq<T>, p: T -> bool)
    ensures Filter(a + b, p) == Filter(a, p) + Filter(b, p)
  {
    if |a| == 0 {
      assert a + b == b;
    } else {
      assert (a + b)[1..] == a[1..] + b;
      FilterAppend(a[1..], b, p);
    }
  }

  /** A filter whose predicate every element meets keeps the whole sequence. */
  lemma {:induction false} FilterKeepsAll<T>(s: seq<T>, p: T -> bool)
    requires forall j :: 0 <= j < |s| ==> p(s[j])
    ensures Filter(s, p) == s
  {
    if |s| > 0 {
      FilterKeepsAll(s[1..], p);
    }
  }

  /** Two complementary filters split a sequence: their lengths add up to its length. */
  lemma {:induction false} FilterPartition<T>(s: seq<T>, p: T -> bool, q: T -> bool)
    requires forall j :: 0 <= j < |s| ==> (p(s[j]) <==> !q(s[j]))
    ensures |Filter(s, p)| + |Filter(s, q)| == |s|
  {
    if |s| > 0 {
      FilterPartition(s[1..], p, q);
    }
  }

  /** The number of elements that satisfy `p` (`filter(p).length`). */
  function Count<T>(s: seq<T>, p: T -> bool): (n: nat)
    ensures n <= |s|
  {
    |Filter(s, p)|
  }

  /** `reduce((sum, x) => sum + f(x), 0)`. */
  function SumOf<T>(s: seq<T>, f: T -> real): real
  {
    if |s| == 0 then 0.0 else f(s[0]) + SumOf(s[1..], f)
  }

  /** The sum over a concatenation is the sum of the sums. */
  lemma {:induction false} SumOfAppend<T>(a: seq<T>, b: seq<T>, f: T -> real)
    ensures SumOf(a + b, f) == SumOf(a, f) + SumOf(b, f)
  {
    if |a| == 0 {
      assert a + b == b;
    } else {
      assert (a + b)[1..] == a[1..] + b;
      SumOfAppend(a[1..], b, f);
    }
  }

  // ---------------------------------------------------------------------
  // Look-ups by key: the `find(r => r.id === id)` pattern of every table.

  /** No element of `s` has key `k`. */
  predicate FreshKey<T, K(==)>(s: seq<T>, key: T -> K, k: K)
  {
    forall j :: 0 <= j < |s| ==> key(s[j]) != k
  }

  /** `findIndex(r => key(r) === k)`. */
  function KeyIndex<T, K(==)>(s: seq<T>, key: T -> K, k: K): (i: int)
    ensures -1 <= i < |s|
    ensures i == -1 <==> FreshKey(s, key, k)
    ensures 0 <= i ==> key(s[i]) == k && FreshKey(s[..i], key, k)
  {
    FindIndex(s, (x: T) => key(x) == k)
  }

  /** `find(r => key(r) === k) || null`. */
  function GetByKey<T, K(==)>(s: seq<T>, key: T -> K, k: K): (r: Option<T>)
    ensures r.None? <==> FreshKey(s, key, k)
    ensures r.Some? ==> key(r.value) == k
    ensures r.Some? ==> r.value == s[KeyIndex(s, key, k)]
  {
    var i := KeyIndex(s, key, k);
    if i == -1 then None else Some(s[i])
  }

  /** The predicate "key is not `k`", as one value, so that two mentions of it are the same. */
  function NotKey<T, K(==)>(key: T -> K, k: K): T -> bool
  {
    (x: T) => key(x) != k
  }

  /** `filter(r => key(r) !== k)`: what `delete` writes back. */
  function WithoutKey<T, K(==)>(s: seq<T>, key: T -> K, k: K): (r: seq<T>)
    ensures FreshKey(r, key, k)
  {
    Filter(s, NotKey(key, k))
  }

  /** Deleting by key from a concatenation deletes from each part and keeps their order. */
  lemma WithoutKeyAppend<T, K>(a: seq<T>, b: seq<T>, key: T -> K, k: K)
    ensures WithoutKey(a + b, key, k) == WithoutKey(a, key, k) + WithoutKey(b, key, k)
  {
    FilterAppend(a, b, NotKey(key, k));
  }

  /** Appending records after a key that is already present does not change which record the key finds. */
  lemma KeyIndexAppend<T, K>(s: seq<T>, t: seq<T>, key: T -> K, k: K)
    requires !FreshKey(s, key, k)
    ensures KeyIndex(s + t, key, k) == KeyIndex(s, key, k)
    ensures GetByKey(s + t, key, k) == GetByKey(s, key, k)
  {
    var i := KeyIndex(s, key, k);
    var i' := KeyIndex(s + t, key, k);
    assert (s + t)[i] == s[i];
    forall j | 0 <= j < i' ensures key((s + t)[j]) != k {
      assert (s + t)[..i'][j] == (s + t)[j];
    }
    forall j | 0 <= j < i ensures key(s[j]) != k {
      assert s[..i][j] == s[j];
    }
    assert i' <= i;
    assert (s + t)[i'] == s[i'];
  }

  /** `delete` reports a removal exactly when some record carried the key. */
  lemma {:induction false} WithoutKeyShrinks<T, K>(s: seq<T>, key: T -> K, k: K)
    ensures |WithoutKey(s, key, k)| < |s| <==> !FreshKey(s, key, k)
    ensures FreshKey(s, key, k) ==> WithoutKey(s, key, k) == s
  {
    if |s| > 0 {
      WithoutKeyShrinks(s[1..], key, k);
      assert FreshKey(s, key, k) <==> key(s[0]) != k && FreshKey(s[1..], key, k) by {
        if FreshKey(s, key, k) {
          assert forall j :: 0 <= j < |s| - 1 ==> s[1..][j] == s[j + 1];
        }
        if key(s[0]) != k && FreshKey(s[1..], key, k) {
          forall j | 0 <= j < |s| ensures key(s[j]) != k {
            if j > 0 { assert s[j] == s[1..][j - 1]; }
          }
        }
      }
    }
  }

  /** A record appended with a fresh key is what a later look-up of that key returns. */
  lemma GetAppendedFresh<T, K>(s: seq<T>, key: T -> K, r: T)
    requires FreshKey(s, key, key(r))
    ensures KeyIndex(s + [r], key, key(r)) == |s|
    ensures GetByKey(s + [r], key, key(r)) == Some(r)
  {
    assert (s + [r])[|s|] == r;
    assert !FreshKey(s + [r], key, key(r));
  }

  // ---------------------------------------------------------------------
  // The stable sort of `Array.prototype.sort` with a numeric comparator.

  ghost predicate SortedBy<T>(s: seq<T>, key: T -> int)
  {
    forall i, j :: 0 <= i < j < |s| ==> key(s[i]) <= key(s[j])
  }

  /** An element no larger than the head of a sorted sequence can go in front of it. */
  lemma SortedCons<T>(h: T, t: seq<T>, key: T -> int)
    requires SortedBy(t, key) && (t == [] || key(h) <= key(t[0]))
    ensures SortedBy([h] + t, key)
  {
    var r := [h] + t;
    forall i, j | 0 <= i < j < |r| ensures key(r[i]) <= key(r[j]) {
      assert r[j] == t[j - 1];
      if i == 0 {
        assert key(t[0]) <= key(t[j - 1]);
      } else {
        assert r[i] == t[i - 1];
      }
    }
  }

  /** Inserts `x` in front of the first element whose key is not smaller. */
  function Insert<T(==)>(x: T, s: seq<T>, key: T -> int): (r: seq<T>)
    requires SortedBy(s, key)
    ensures |r| == |s| + 1
    ensures multiset(r) == multiset(s) + multiset{x}
    ensures SortedBy(r, key)
    ensures r[0] == x || (|s| > 0 && r[0] == s[0])
  {
    if s == [] || key(x) <= key(s[0]) then
      SortedCons(x, s, key);
      [x] + s
    else
      assert SortedBy(s[1..], key);
      var rest := Insert(x, s[1..], key);
      assert s == [s[0]] + s[1..];
      assert key(s[0]) <= key(rest[0]);
      SortedCons(s[0], rest, key);
      [s[0]] + rest
  }

  /** Insertion sort by an integer key: ascending, equal keys in input order. */
  function SortBy<T(==)>(s: seq<T>, key: T -> int): (r: seq<T>)
    ensures |r| == |s|
    ensures multiset(r) == multiset(s)
    ensures SortedBy(r, key)
  {
    if s == [] then []
    else
      assert s == [s[0]] + s[1..];
      Insert(s[0], SortBy(s[1..], key), key)
  }

  /** The predicate "has key `v`", as one value, so that two mentions of it are the same. */
  function KeyIs<T>(key: T -> int, v: int): T -> bool
  {
    (x: T) => key(x) == v
  }

  /** The filter of a single element: the element itself when it passes, otherwise nothing. */
  lemma FilterSingle<T>(x: T, p: T -> bool)
    ensures Filter([x], p) == if p(x) then [x] else []
  {
    assert [x][1..] == [];
  }

  /**
   * Putting `h` in front of two sequences whose filters differ by a prefix
   * `mine` keeps that difference, as long as `h` and `mine` are never both
   * kept.
   */
  lemma FilterConsShift<T>(h: T, rest: seq<T>, tail: seq<T>, p: T -> bool, mine: seq<T>)
    requires Filter(rest, p) == mine + Filter(tail, p)
    requires mine == [] || !p(h)
    ensures Filter([h] + rest, p) == mine + Filter([h] + tail, p)
  {
    var front := Filter([h], p);
    var fr := Filter(rest, p);
    var ft := Filter(tail, p);
    FilterAppend([h], rest, p);
    FilterAppend([h], tail, p);
    if mine == [] {
      assert fr == ft by {
        assert [] + ft == ft;
      }
      assert [] + (front + ft) == front + ft;
    } else {
      FilterSingle(h, p);
      assert front == [];
      assert [] + fr == fr;
      assert [] + ft == ft;
    }
  }

  lemma {:induction false} InsertStable<T>(x: T, s: seq<T>, key: T -> int, v: int)
    requires SortedBy(s, key)
    ensures Filter(Insert(x, s, key), KeyIs(key, v)) == (if key(x) == v then [x] else []) + Filter(s, KeyIs(key, v))
  {
    var p := KeyIs(key, v);
    var mine := if key(x) == v then [x] else [];
    if s == [] || key(x) <= key(s[0]) {
      assert Insert(x, s, key) == [x] + s;
      FilterAppend([x], s, p);
      FilterSingle(x, p);
    } else {
      InsertStable(x, s[1..], key, v);
      var rest := Insert(x, s[1..], key);
      assert Insert(x, s, key) == [s[0]] + rest;
      assert s == [s[0]] + s[1..];
      FilterConsShift(s[0], rest, s[1..], p, mine);
    }
  }

  /** The sort is stable: for every key, the elements with that key keep their input order. */
  lemma {:induction false} SortByStable<T>(s: seq<T>, key: T -> int, v: int)
    ensures Filter(SortBy(s, key), KeyIs(key, v)) == Filter(s, KeyIs(key, v))
  {
    if s != [] {
      SortByStable(s[1..], key, v);
      InsertStable(s[0], SortBy(s[1..], key), key, v);
    }
  }

  /**
   * `filter(p).sort((a, b) => key(a) - key(b))`: exactly the elements that
   * satisfy `p`, each as often as it occurs, in ascending key order.
   */
  function SortedFilter<T(==)>(s: seq<T>, p: T -> bool, key: T -> int): (r: seq<T>)
    ensures forall j :: 0 <= j < |r| ==> p(r[j]) && r[j] in s
    ensures forall j :: 0 <= j < |s| && p(s[j]) ==> s[j] in r
    ensures SortedBy(r, key)
    ensures multiset(r) == multiset(Filter(s, p))
  {
    var own := Filter(s, p);
    var r := SortBy(own, key);
    SameMembers(r, own);
    SameMembers(own, r);
    r
  }

  /** Sequences with the same multiset have the same members. */
  lemma SameMembers<T>(a: seq<T>, b: seq<T>)
    requires multiset(a) == multiset(b)
    ensures forall j :: 0 <= j < |a| ==> a[j] in b
  {
    forall j | 0 <= j < |a| ensures a[j] in b {
      assert a[j] in multiset(a);
    }
  }
}
