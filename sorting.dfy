/** Python's `list.sort(key=...)` and `sorted(...)` for string keys: a stable sort
    under Python's ordering of `str` (code point by code point, a proper prefix
    first). The sort itself belongs to the Python runtime, not to the scripts; it is
    given here as an insertion sort with the three facts the scripts depend on:
    the result is ordered, it is a permutation, and equal keys keep their order. */
module Sorting {

  /** Python's `a <= b` on `str`. */
  predicate LexLe(a: string, b: string)
    decreases |a|
  {
    a == [] || (b != [] && (a[0] < b[0] || (a[0] == b[0] && LexLe(a[1..], b[1..]))))
  }

  lemma {:induction false} LexLeReflexive(a: string)
    ensures LexLe(a, a)
  {
    if a != [] {
      LexLeReflexive(a[1..]);
    }
  }

  lemma {:induction false} LexLeTotal(a: string, b: string)
    ensures LexLe(a, b) || LexLe(b, a)
  {
    if a != [] && b != [] && a[0] == b[0] {
      LexLeTotal(a[1..], b[1..]);
    }
  }

  lemma {:induction false} LexLeTransitive(a: string, b: string, c: string)
    requires LexLe(a, b) && LexLe(b, c)
    ensures LexLe(a, c)
  {
    if a != [] && b != [] && c != [] && a[0] == b[0] == c[0] {
      LexLeTransitive(a[1..], b[1..], c[1..]);
    }
  }

  lemma {:induction false} LexLeAntisymmetric(a: string, b: string)
    requires LexLe(a, b) && LexLe(b, a)
    ensures a == b
  {
    if a != [] && b != [] {
      LexLeAntisymmetric(a[1..], b[1..]);
      assert a == [a[0]] + a[1..];
      assert b == [b[0]] + b[1..];
    }
  }

  /** The keys of `xs` never decrease. */
  ghost predicate SortedBy<T>(xs: seq<T>, key: T -> string)
  {
    forall i, j :: 0 <= i < j < |xs| ==> LexLe(key(xs[i]), key(xs[j]))
  }

  /** Every key in `xs` is at least `k`. */
  ghost predicate AtLeast<T>(k: string, xs: seq<T>, key: T -> string)
  {
    forall i :: 0 <= i < |xs| ==> LexLe(k, key(xs[i]))
  }

  /** Inserts `x` in front of the first element whose key is not below its own. */
  function Insert<T>(x: T, xs: seq<T>, key: T -> string): (r: seq<T>)
    ensures |r| == |xs| + 1
  {
    if xs == [] then [x]
    else if LexLe(key(x), key(xs[0])) then [x] + xs
    else [xs[0]] + Insert(x, xs[1..], key)
  }

  /** `sorted(xs, key=key)` */
  function SortBy<T>(xs: seq<T>, key: T -> string): (r: seq<T>)
    ensures |r| == |xs|
  {
    if xs == [] then [] else Insert(xs[0], SortBy(xs[1..], key), key)
  }

  /** The elements of `xs` whose key is `k`, in their order. */
  function WithKey<T>(xs: seq<T>, key: T -> string, k: string): seq<T>
  {
    if xs == [] then [] else (if key(xs[0]) == k then [xs[0]] else []) + WithKey(xs[1..], key, k)
  }

  lemma {:induction false} InsertAtLeast<T>(k: string, x: T, xs: seq<T>, key: T -> string)
    requires AtLeast(k, xs, key) && LexLe(k, key(x))
    ensures AtLeast(k, Insert(x, xs, key), key)
  {
    if xs != [] && !LexLe(key(x), key(xs[0])) {
      InsertAtLeast(k, x, xs[1..], key);
    }
  }

  lemma {:induction false} InsertSorted<T>(x: T, xs: seq<T>, key: T -> string)
    requires SortedBy(xs, key)
    ensures SortedBy(Insert(x, xs, key), key)
  {
    var r := Insert(x, xs, key);
    if xs == [] {
    } else if LexLe(key(x), key(xs[0])) {
      forall j | 1 <= j < |r| ensures LexLe(key(r[0]), key(r[j])) {
        if j > 1 {
          LexLeTransitive(key(x), key(xs[0]), key(xs[j - 1]));
        }
      }
    } else {
      var rest := Insert(x, xs[1..], key);
      InsertSorted(x, xs[1..], key);
      LexLeTotal(key(x), key(xs[0]));
      assert AtLeast(key(xs[0]), xs[1..], key);
      InsertAtLeast(key(xs[0]), x, xs[1..], key);
      assert r == [xs[0]] + rest;
    }
  }

  /** A sorted result. */
  lemma {:induction false} SortBySorted<T>(xs: seq<T>, key: T -> string)
    ensures SortedBy(SortBy(xs, key), key)
  {
    if xs != [] {
      SortBySorted(xs[1..], key);
      InsertSorted(xs[0], SortBy(xs[1..], key), key);
    }
  }

  lemma {:induction false} InsertPermutes<T>(x: T, xs: seq<T>, key: T -> string)
    ensures multiset(Insert(x, xs, key)) == multiset(xs) + multiset{x}
  {
    if xs != [] && !LexLe(key(x), key(xs[0])) {
      InsertPermutes(x, xs[1..], key);
      assert xs == [xs[0]] + xs[1..];
    }
  }

  /** A permutation of the input. */
  lemma {:induction false} SortByPermutes<T>(xs: seq<T>, key: T -> string)
    ensures multiset(SortBy(xs, key)) == multiset(xs)
  {
    if xs != [] {
      SortByPermutes(xs[1..], key);
      InsertPermutes(xs[0], SortBy(xs[1..], key), key);
      assert xs == [xs[0]] + xs[1..];
    }
  }

  lemma {:induction false} InsertWithKey<T>(x: T, xs: seq<T>, key: T -> string, k: string)
    ensures WithKey(Insert(x, xs, key), key, k) == (if key(x) == k then [x] else []) + WithKey(xs, key, k)
  {
    if xs != [] && !LexLe(key(x), key(xs[0])) {
      var rest := Insert(x, xs[1..], key);
      var r := Insert(x, xs, key);
      InsertWithKey(x, xs[1..], key, k);
      LexLeReflexive(key(x));
      assert key(x) != key(xs[0]);
      assert r == [xs[0]] + rest && r[1..] == rest;
      assert WithKey(r, key, k) == (if key(xs[0]) == k then [xs[0]] else []) + WithKey(rest, key, k);
      assert WithKey(xs, key, k) == (if key(xs[0]) == k then [xs[0]] else []) + WithKey(xs[1..], key, k);
    }
  }

  /** Stability: the elements sharing one key leave the sort in their input order. */
  lemma {:induction false} SortByStable<T>(xs: seq<T>, key: T -> string, k: string)
    ensures WithKey(SortBy(xs, key), key, k) == WithKey(xs, key, k)
  {
    if xs != [] {
      SortByStable(xs[1..], key, k);
      InsertWithKey(xs[0], SortBy(xs[1..], key), key, k);
    }
  }

  /** No element occurs twice. */
  ghost predicate Distinct<T>(xs: seq<T>)
  {
    forall i, j :: 0 <= i < j < |xs| ==> xs[i] != xs[j]
  }

  lemma {:induction false} InsertDistinct<T>(x: T, xs: seq<T>, key: T -> string)
    requires Distinct(xs) && x !in xs
    ensures Distinct(Insert(x, xs, key))
  {
    if xs != [] && !LexLe(key(x), key(xs[0])) {
      var rest := Insert(x, xs[1..], key);
      InsertDistinct(x, xs[1..], key);
      InsertPermutes(x, xs[1..], key);
      assert xs[0] !in multiset(rest);
      assert Insert(x, xs, key) == [xs[0]] + rest;
    }
  }

  /** Sorting a sequence without repetitions (the keys of a dictionary) keeps it
      without repetitions. */
  lemma {:induction false} SortByDistinct<T>(xs: seq<T>, key: T -> string)
    requires Distinct(xs)
    ensures Distinct(SortBy(xs, key))
  {
    if xs != [] {
      SortByDistinct(xs[1..], key);
      SortByPermutes(xs[1..], key);
      assert xs[0] !in multiset(SortBy(xs[1..], key));
      InsertDistinct(xs[0], SortBy(xs[1..], key), key);
    }
  }
}
