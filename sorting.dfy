/** Python's `sorted(xs, key=k)`: a stable sort by a real-valued key, given here as
    a reference definition (insertion of each element after every element whose key
    is not larger) together with the three facts the rest of the model relies on:
    the result is ordered, it is a permutation of the input, and elements with equal
    keys keep their relative order. */
module Sorting {

  predicate SortedBy<T>(s: seq<T>, key: T -> real)
  {
    forall i, j :: 0 <= i < j < |s| ==> key(s[i]) <= key(s[j])
  }

  /** Inserts `x` after every element whose key is at most `key(x)`. */
  function Insert<T>(t: seq<T>, x: T, key: T -> real): seq<T>
  {
    if |t| == 0 then [x]
    else if key(x) < key(t[0]) then [x] + t
    else [t[0]] + Insert(t[1..], x, key)
  }

  /** The stable sort: each element, taken in input order, is inserted into the sorted prefix. */
  function SortBy<T>(s: seq<T>, key: T -> real): seq<T>
  {
    if |s| == 0 then [] else Insert(SortBy(s[..|s| - 1], key), s[|s| - 1], key)
  }

  /** The elements of `s` whose key is `k`, in order. */
  function WithKey<T>(s: seq<T>, key: T -> real, k: real): seq<T>
  {
    if |s| == 0 then []
    else (if key(s[0]) == k then [s[0]] else []) + WithKey(s[1..], key, k)
  }

  lemma {:induction false} InsertPermutes<T>(t: seq<T>, x: T, key: T -> real)
    ensures multiset(Insert(t, x, key)) == multiset(t) + multiset{x}
    decreases |t|
  {
    if |t| != 0 && key(t[0]) <= key(x) {
      InsertPermutes(t[1..], x, key);
      assert t == [t[0]] + t[1..];
    }
  }

  lemma {:induction false} InsertSorted<T>(t: seq<T>, x: T, key: T -> real)
    requires SortedBy(t, key)
    ensures SortedBy(Insert(t, x, key), key)
    decreases |t|
  {
    if |t| != 0 && key(t[0]) <= key(x) {
      InsertSorted(t[1..], x, key);
      InsertPermutes(t[1..], x, key);
      var r := Insert(t[1..], x, key);
      forall y | y in multiset(r)
        ensures key(t[0]) <= key(y)
      {
        assert y in multiset(t[1..]) + multiset{x};
        if y in multiset(t[1..]) {
          var j :| 0 <= j < |t[1..]| && t[1..][j] == y;
          assert t[j + 1] == y;
        }
      }
      forall j | 0 <= j < |r|
        ensures key(t[0]) <= key(r[j])
      {
        assert r[j] in multiset(r);
      }
    }
  }

  /** Inserting `x` into a sorted sequence puts it after every element with its own key. */
  lemma {:induction false} InsertWithKey<T>(t: seq<T>, x: T, key: T -> real, k: real)
    requires SortedBy(t, key)
    ensures WithKey(Insert(t, x, key), key, k) ==
            if key(x) == k then WithKey(t, key, k) + [x] else WithKey(t, key, k)
    decreases |t|
  {
    if |t| == 0 {
    } else if key(x) < key(t[0]) {
      WithKeyAllLarger(t, key, key(x));
      assert ([x] + t)[1..] == t;
    } else {
      var rest := t[1..];
      var r := Insert(rest, x, key);
      InsertWithKey(rest, x, key, k);
      assert ([t[0]] + r)[1..] == r;
      var front := if key(t[0]) == k then [t[0]] else [];
      assert front + (WithKey(rest, key, k) + [x]) == (front + WithKey(rest, key, k)) + [x];
    }
  }

  /** In a sorted sequence whose first key exceeds `k0`, no element has key `k0`. */
  lemma {:induction false} WithKeyAllLarger<T>(t: seq<T>, key: T -> real, k0: real)
    requires SortedBy(t, key)
    requires |t| > 0 ==> k0 < key(t[0])
    ensures WithKey(t, key, k0) == []
    decreases |t|
  {
    if |t| > 0 {
      WithKeyAllLarger(t[1..], key, k0);
    }
  }

  /** The result is ordered by the key. */
  lemma {:induction false} SortBySorted<T>(s: seq<T>, key: T -> real)
    ensures SortedBy(SortBy(s, key), key)
    decreases |s|
  {
    if |s| != 0 {
      SortBySorted(s[..|s| - 1], key);
      InsertSorted(SortBy(s[..|s| - 1], key), s[|s| - 1], key);
    }
  }

  /** The result holds the same elements, with the same multiplicities. */
  lemma {:induction false} SortByPermutes<T>(s: seq<T>, key: T -> real)
    ensures multiset(SortBy(s, key)) == multiset(s)
    decreases |s|
  {
    if |s| != 0 {
      SortByPermutes(s[..|s| - 1], key);
      InsertPermutes(SortBy(s[..|s| - 1], key), s[|s| - 1], key);
      assert s == s[..|s| - 1] + [s[|s| - 1]];
    }
  }

  /** Stability: for every key value, the elements carrying it appear in input order. */
  lemma {:induction false} SortByStable<T>(s: seq<T>, key: T -> real, k: real)
    ensures WithKey(SortBy(s, key), key, k) == WithKey(s, key, k)
    decreases |s|
  {
    if |s| != 0 {
      SortByStable(s[..|s| - 1], key, k);
      SortBySorted(s[..|s| - 1], key);
      InsertWithKey(SortBy(s[..|s| - 1], key), s[|s| - 1], key, k);
      WithKeySnoc(s[..|s| - 1], s[|s| - 1], key, k);
      assert s[..|s| - 1] + [s[|s| - 1]] == s;
    }
  }

  /** Filtering commutes with appending an element at the end. */
  lemma {:induction false} WithKeySnoc<T>(t: seq<T>, y: T, key: T -> real, k: real)
    ensures WithKey(t + [y], key, k) == WithKey(t, key, k) + (if key(y) == k then [y] else [])
    decreases |t|
  {
    if |t| == 0 {
      assert ([] + [y])[1..] == [];
    } else {
      var u := t + [y];
      assert u[0] == t[0] && u[1..] == t[1..] + [y];
      WithKeySnoc(t[1..], y, key, k);
      var f := if key(t[0]) == k then [t[0]] else [];
      var g := if key(y) == k then [y] else [];
      assert WithKey(u, key, k) == f + (WithKey(t[1..], key, k) + g);
      assert f + (WithKey(t[1..], key, k) + g) == (f + WithKey(t[1..], key, k)) + g;
    }
  }

  /** A sequence that is already ordered is returned unchanged. */
  lemma {:induction false} SortBySortedIdentity<T>(s: seq<T>, key: T -> real)
    requires SortedBy(s, key)
    ensures SortBy(s, key) == s
    decreases |s|
  {
    if |s| != 0 {
      var p := s[..|s| - 1];
      assert SortedBy(p, key);
      SortBySortedIdentity(p, key);
      InsertAtEnd(p, s[|s| - 1], key);
      assert p + [s[|s| - 1]] == s;
    }
  }

  lemma {:induction false} InsertAtEnd<T>(t: seq<T>, x: T, key: T -> real)
    requires forall i :: 0 <= i < |t| ==> key(t[i]) <= key(x)
    ensures Insert(t, x, key) == t + [x]
    decreases |t|
  {
    if |t| != 0 {
      InsertAtEnd(t[1..], x, key);
      assert [t[0]] + (t[1..] + [x]) == t + [x];
    }
  }
}
