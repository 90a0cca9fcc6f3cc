/**
 * The array operations the storefront uses on its lists: filter, sort with a comparator,
 * slice of a prefix, and distinctness. JavaScript's Array.prototype.filter and sort are
 * modelled as functions on sequences.
 */
module Sequences {

  /** Array.prototype.filter: the elements satisfying p, in their original order. */
  function Filter<T>(s: seq<T>, p: T -> bool): (r: seq<T>)
    ensures |r| <= |s|
    ensures forall x :: x in r ==> x in s && p(x)
    ensures forall x :: x in s && p(x) ==> x in r
    ensures forall i :: 0 <= i < |r| ==> p(r[i])
    ensures multiset(r) <= multiset(s)
  {
    if s == [] then []
    else
      assert s == [s[0]] + s[1..];
      if p(s[0]) then [s[0]] + Filter(s[1..], p) else Filter(s[1..], p)
  }

  /** Filtering a concatenation filters each part. */
  lemma {:induction false} FilterAppend<T>(a: seq<T>, b: seq<T>, p: T -> bool)
    ensures Filter(a + b, p) == Filter(a, p) + Filter(b, p)
  {
    if a == [] {
      assert a + b == b;
    } else {
      var ab := a + b;
      assert ab != [] && ab[0] == a[0];
      assert ab[1..] == a[1..] + b;
      FilterAppend(a[1..], b, p);
      if p(a[0]) {
        calc {
          Filter(ab, p);
          [a[0]] + Filter(a[1..] + b, p);
          [a[0]] + (Filter(a[1..], p) + Filter(b, p));
          ([a[0]] + Filter(a[1..], p)) + Filter(b, p);
        }
      } else {
        assert Filter(ab, p) == Filter(a[1..] + b, p);
      }
    }
  }

  /** A filter that every element passes returns the list unchanged. */
  lemma {:induction false} FilterAll<T>(s: seq<T>, p: T -> bool)
    requires forall x :: x in s ==> p(x)
    ensures Filter(s, p) == s
  {
    if s != [] {
      FilterAll(s[1..], p);
    }
  }

  /** Each value is kept as often as it occurs when it passes, and dropped entirely when it fails. */
  lemma {:induction false} FilterMultiplicity<T>(s: seq<T>, p: T -> bool, x: T)
    ensures multiset(Filter(s, p))[x] == if p(x) then multiset(s)[x] else 0
  {
    if s != [] {
      FilterMultiplicity(s[1..], p, x);
      var rest := Filter(s[1..], p);
      var one := if s[0] == x then 1 else 0;
      assert multiset(s)[x] == one + multiset(s[1..])[x] by {
        assert s == [s[0]] + s[1..];
      }
      if p(s[0]) {
        assert multiset(Filter(s, p))[x] == one + multiset(rest)[x] by {
          assert Filter(s, p) == [s[0]] + rest;
        }
      }
    }
  }

  /** A weaker predicate keeps at least as many elements. */
  lemma {:induction false} FilterLengthMonotone<T>(s: seq<T>, p: T -> bool, q: T -> bool)
    requires forall x :: p(x) ==> q(x)
    ensures |Filter(s, p)| <= |Filter(s, q)|
  {
    if s != [] {
      FilterLengthMonotone(s[1..], p, q);
    }
  }

  /** Every value occurs at most once. */
  ghost predicate Distinct<T>(s: seq<T>)
  {
    forall x | x in s :: multiset(s)[x] == 1
  }

  /** le is a total preorder: the comparators the storefront sorts with are all of this kind. */
  ghost predicate TotalPreorder<T(!new)>(le: (T, T) -> bool)
  {
    && (forall a, b :: le(a, b) || le(b, a))
    && (forall a, b, c :: le(a, b) && le(b, c) ==> le(a, c))
  }

  /** Every element comes no later than the ones after it, in the order le. */
  ghost predicate Sorted<T>(s: seq<T>, le: (T, T) -> bool)
  {
    forall i, j :: 0 <= i < j < |s| ==> le(s[i], s[j])
  }

  /** Place x before the first element it may precede. */
  function Insert<T>(x: T, s: seq<T>, le: (T, T) -> bool): (r: seq<T>)
    ensures multiset(r) == multiset(s) + multiset{x}
    ensures |r| == |s| + 1
  {
    if s == [] then [x]
    else if le(x, s[0]) then [x] + s
    else
      assert s == [s[0]] + s[1..];
      [s[0]] + Insert(x, s[1..], le)
  }

  /** Array.prototype.sort with a comparator, as an insertion sort. */
  function Sort<T>(s: seq<T>, le: (T, T) -> bool): (r: seq<T>)
    ensures multiset(r) == multiset(s)
    ensures |r| == |s|
  {
    if s == [] then []
    else
      assert s == [s[0]] + s[1..];
      Insert(s[0], Sort(s[1..], le), le)
  }

  lemma {:induction false} InsertSorted<T(!new)>(x: T, s: seq<T>, le: (T, T) -> bool)
    requires TotalPreorder(le) && Sorted(s, le)
    ensures Sorted(Insert(x, s, le), le)
  {
    if s != [] && !le(x, s[0]) {
      var t := s[1..];
      assert Sorted(t, le);
      InsertSorted(x, t, le);
      var r' := Insert(x, t, le);
      forall j | 0 <= j < |r'| ensures le(s[0], r'[j]) {
        var y := r'[j];
        assert y in multiset(r');
        if y != x {
          assert y in multiset(t);
          var k :| 0 <= k < |t| && t[k] == y;
          assert s[k + 1] == y;
        }
      }
    }
  }

  /** Sorting with a total preorder gives a sorted permutation. */
  lemma {:induction false} SortSorted<T(!new)>(s: seq<T>, le: (T, T) -> bool)
    requires TotalPreorder(le)
    ensures Sorted(Sort(s, le), le)
  {
    if s != [] {
      SortSorted(s[1..], le);
      InsertSorted(s[0], Sort(s[1..], le), le);
    }
  }

  /** A permutation of a list without repeats has none either. */
  lemma {:induction false} DistinctPermutation<T>(s: seq<T>, t: seq<T>)
    requires multiset(s) == multiset(t) && Distinct(s)
    ensures Distinct(t)
  {
  }

  /** Sorting a list without repeats gives a sorted list without repeats holding the same values. */
  lemma {:induction false} SortDistinct<T(!new)>(s: seq<T>, le: (T, T) -> bool)
    requires TotalPreorder(le) && Distinct(s)
    ensures Distinct(Sort(s, le)) && Sorted(Sort(s, le), le)
    ensures forall x :: x in Sort(s, le) <==> x in s
  {
    var r := Sort(s, le);
    SortSorted(s, le);
    DistinctPermutation(s, r);
    forall x ensures x in r <==> x in s {
      assert x in r <==> x in multiset(r);
    }
  }

  /**
   * Taking the first n of a sorted list keeps the best ones: everything left
   * behind comes no earlier than anything taken.
   */
  lemma {:induction false} TakeSortedIsTop<T>(s: seq<T>, n: nat, le: (T, T) -> bool)
    requires Sorted(s, le) && n <= |s|
    ensures forall i, y :: 0 <= i < n && y in multiset(s) - multiset(s[..n]) ==> le(s[i], y)
  {
    assert s == s[..n] + s[n..];
    forall i, y | 0 <= i < n && y in multiset(s) - multiset(s[..n]) ensures le(s[i], y) {
      assert y in multiset(s[n..]);
      var k :| 0 <= k < |s[n..]| && s[n..][k] == y;
      assert s[n + k] == y;
    }
  }

  /** `slice(0, n)`: the first n elements, or all of them when there are fewer. */
  function Take<T>(s: seq<T>, n: nat): (r: seq<T>)
    ensures |r| == if |s| <= n then |s| else n
    ensures r == s[..|r|]
  {
    if |s| <= n then s else s[..n]
  }

  /** A prefix of a sorted list is sorted and is a sub-multiset of the list. */
  lemma {:induction false} PrefixOfSorted<T>(s: seq<T>, n: nat, le: (T, T) -> bool)
    requires Sorted(s, le) && n <= |s|
    ensures Sorted(s[..n], le)
    ensures multiset(s[..n]) <= multiset(s)
    ensures forall x :: x in s[..n] ==> x in s
  {
    assert s == s[..n] + s[n..];
  }

  /**
   * The first n of a list sorted by a total preorder: drawn from the list, sorted, and no
   * element left behind comes before one taken.
   */
  lemma {:induction false} TopOf<T(!new)>(s: seq<T>, n: nat, le: (T, T) -> bool)
    requires TotalPreorder(le)
    ensures IsTop(s, Take(Sort(s, le), n), le)
  {
    var sorted := Sort(s, le);
    SortSorted(s, le);
    var r := Take(sorted, n);
    TakeSortedIsTop(sorted, |r|, le);
    PrefixOfSorted(sorted, |r|, le);
    forall i | 0 <= i < |r| ensures r[i] in s {
      assert r[i] in sorted;
      assert r[i] in multiset(sorted);
    }
  }

  /**
   * r is a top selection from s under le: drawn from s, in order, and coming before every
   * element left behind.
   */
  ghost predicate IsTop<T>(s: seq<T>, r: seq<T>, le: (T, T) -> bool)
  {
    && multiset(r) <= multiset(s)
    && (forall i :: 0 <= i < |r| ==> r[i] in s)
    && Sorted(r, le)
    && forall i, y :: 0 <= i < |r| && y in multiset(s) - multiset(r) ==> le(r[i], y)
  }

  /** The key of every element, in order (for line items and saved items, their product ids). */
  function Keys<T, K>(s: seq<T>, key: T -> K): (r: seq<K>)
    ensures |r| == |s|
    ensures forall i :: 0 <= i < |s| ==> r[i] == key(s[i])
  {
    if s == [] then [] else [key(s[0])] + Keys(s[1..], key)
  }

  lemma {:induction false} KeysAppend<T, K>(a: seq<T>, b: seq<T>, key: T -> K)
    ensures Keys(a + b, key) == Keys(a, key) + Keys(b, key)
  {
  }

  /** `s.filter(x => key(x) !== k)`: drop every element with key k. */
  function DropKey<T, K(==)>(s: seq<T>, key: T -> K, k: K): (r: seq<T>)
  {
    Filter(s, x => key(x) != k)
  }

  /** Dropping key k removes every occurrence of k among the keys and leaves the other keys' counts alone. */
  lemma {:induction false} DropKeyKeys<T, K>(s: seq<T>, key: T -> K, k: K)
    ensures multiset(Keys(DropKey(s, key, k), key)) == multiset(Keys(s, key))[k := 0]
  {
    if s != [] {
      DropKeyKeys(s[1..], key, k);
      var t := DropKey(s[1..], key, k);
      assert Keys(s, key) == [key(s[0])] + Keys(s[1..], key);
      if key(s[0]) != k {
        assert DropKey(s, key, k) == [s[0]] + t;
        assert Keys([s[0]] + t, key) == [key(s[0])] + Keys(t, key);
      }
    }
  }

  /** With the keys distinct, dropping one keeps them distinct and removes that key. */
  lemma {:induction false} DropKeyDistinct<T, K>(s: seq<T>, key: T -> K, k: K)
    requires Distinct(Keys(s, key))
    ensures Distinct(Keys(DropKey(s, key, k), key))
    ensures k !in Keys(DropKey(s, key, k), key)
  {
    DropKeyKeys(s, key, k);
    var before, after := Keys(s, key), Keys(DropKey(s, key, k), key);
    forall x | x in after ensures multiset(after)[x] == 1 {
      assert x in multiset(after);
    }
    assert k !in multiset(after);
  }

  /** Dropping a key from a list with one more element at the end, whose key it is, drops that element too. */
  lemma {:induction false} DropKeyAppendKey<T, K>(s: seq<T>, x: T, key: T -> K)
    ensures DropKey(s + [x], key, key(x)) == DropKey(s, key, key(x))
  {
    FilterAppend(s, [x], y => key(y) != key(x));
    assert DropKey([x], key, key(x)) == [];
  }

  /** Dropping a key that does not occur changes nothing. */
  lemma {:induction false} DropKeyAbsent<T, K>(s: seq<T>, key: T -> K, k: K)
    requires k !in Keys(s, key)
    ensures DropKey(s, key, k) == s
  {
    forall x | x in s ensures key(x) != k {
      var i :| 0 <= i < |s| && s[i] == x;
      assert Keys(s, key)[i] == key(x);
    }
    FilterAll(s, x => key(x) != k);
  }

  /** In a list without repeats, equal elements sit at the same index. */
  lemma {:induction false} DistinctIndices<T>(s: seq<T>, i: nat, j: nat)
    requires Distinct(s) && i < |s| && j < |s| && s[i] == s[j]
    ensures i == j
  {
    if i < j {
      TwoOccurrences(s, i, j);
    } else if j < i {
      TwoOccurrences(s, j, i);
    }
  }

  lemma {:induction false} TwoOccurrences<T>(s: seq<T>, lo: nat, hi: nat)
    requires lo < hi < |s| && s[lo] == s[hi]
    ensures multiset(s)[s[lo]] >= 2
  {
    assert s == s[..hi] + s[hi..];
    assert s[lo] in multiset(s[..hi]);
    assert s[hi] in multiset(s[hi..]);
  }

  /** The tail of a list without repeats has none either, and does not contain the head. */
  lemma {:induction false} DistinctTail<T>(s: seq<T>)
    requires Distinct(s) && s != []
    ensures Distinct(s[1..]) && s[0] !in s[1..]
  {
    assert s == [s[0]] + s[1..];
    var m, t := multiset(s), multiset(s[1..]);
    assert m == multiset{s[0]} + t;
    assert s[0] in s;
    assert m[s[0]] == 1 + t[s[0]];
    assert t[s[0]] == 0;
    forall x | x in s[1..] ensures t[x] == 1 {
      assert x in s;
      assert x in t;
      assert m[x] >= t[x];
    }
  }

  lemma {:induction false} DistinctAppend<T>(s: seq<T>, x: T)
    requires Distinct(s) && x !in s
    ensures Distinct(s + [x])
  {
    assert multiset(s + [x]) == multiset(s) + multiset{x};
  }
}
