/** A stable sort on an integer key, standing in for `Array.prototype.sort`
    with a comparator `(a, b) => key(a) - key(b)` (stable since ES2019).
    A descending sort is the ascending sort on the negated key. */
module StableSort {
  import opened Seqs

  predicate SortedBy<T>(s: seq<T>, key: T -> int)
  {
    forall i, j :: 0 <= i < j < |s| ==> key(s[i]) <= key(s[j])
  }

  /** Inserts `x` in front of the first element whose key is not smaller, so
      that `x` stays ahead of the elements with the same key. */
  function Insert<T>(x: T, s: seq<T>, key: T -> int): (r: seq<T>)
    ensures |r| == |s| + 1
  {
    if s == [] then [x]
    else if key(x) <= key(s[0]) then [x] + s
    else [s[0]] + Insert(x, s[1..], key)
  }

  /** Insertion adds `x` and loses nothing. */
  lemma {:induction false} InsertPermutes<T>(x: T, s: seq<T>, key: T -> int)
    ensures multiset(Insert(x, s, key)) == multiset(s) + multiset{x}
  {
    if s != [] && key(x) > key(s[0]) {
      assert s == [s[0]] + s[1..];
      InsertPermutes(x, s[1..], key);
    }
  }

  /** A lower bound on the keys of `x` and of `s` bounds the keys after insertion. */
  lemma {:induction false} InsertBound<T>(x: T, s: seq<T>, key: T -> int, b: int)
    requires b <= key(x)
    requires forall i :: 0 <= i < |s| ==> b <= key(s[i])
    ensures forall j :: 0 <= j < |Insert(x, s, key)| ==> b <= key(Insert(x, s, key)[j])
  {
    if s != [] && key(x) > key(s[0]) {
      InsertBound(x, s[1..], key, b);
    }
  }

  lemma {:induction false} InsertSorted<T>(x: T, s: seq<T>, key: T -> int)
    requires SortedBy(s, key)
    ensures SortedBy(Insert(x, s, key), key)
  {
    if s != [] && key(x) > key(s[0]) {
      InsertSorted(x, s[1..], key);
      InsertBound(x, s[1..], key, key(s[0]));
    }
  }

  /** Insertion sort: a permutation of `s`. */
  function SortBy<T>(s: seq<T>, key: T -> int): (r: seq<T>)
    ensures |r| == |s|
    ensures multiset(r) == multiset(s)
  {
    if s == [] then []
    else
      assert s == [s[0]] + s[1..];
      InsertPermutes(s[0], SortBy(s[1..], key), key);
      Insert(s[0], SortBy(s[1..], key), key)
  }

  /** The result of the sort is ordered by `key`. */
  lemma {:induction false} SortBySorted<T>(s: seq<T>, key: T -> int)
    ensures SortedBy(SortBy(s, key), key)
  {
    if s != [] {
      SortBySorted(s[1..], key);
      InsertSorted(s[0], SortBy(s[1..], key), key);
    }
  }

  /** The predicate "has key `v`". */
  function KeyIs<T>(key: T -> int, v: int): T -> bool
  {
    (y: T) => key(y) == v
  }

  lemma {:induction false} InsertKeepsKeyClass<T>(x: T, s: seq<T>, key: T -> int, v: int)
    ensures Filter(Insert(x, s, key), KeyIs(key, v))
         == (if key(x) == v then [x] else []) + Filter(s, KeyIs(key, v))
  {
    var p := KeyIs(key, v);
    if s != [] && key(x) > key(s[0]) {
      var h, rest := s[0], s[1..];
      assert s == [h] + rest;
      InsertKeepsKeyClass(x, rest, key, v);
      FilterAppend([h], Insert(x, rest, key), p);
      FilterAppend([h], rest, p);
      assert Insert(x, s, key) == [h] + Insert(x, rest, key);
      if key(x) == v {
        assert Filter([h], p) == [];
      }
    } else if s != [] {
      assert Insert(x, s, key) == [x] + s;
      FilterAppend([x], s, p);
    }
  }

  /** Stability: the elements with any one key come out in their input order. */
  lemma {:induction false} SortIsStable<T>(s: seq<T>, key: T -> int, v: int)
    ensures Filter(SortBy(s, key), KeyIs(key, v)) == Filter(s, KeyIs(key, v))
  {
    if s != [] {
      SortIsStable(s[1..], key, v);
      InsertKeepsKeyClass(s[0], SortBy(s[1..], key), key, v);
    }
  }

  /** The first `n` elements of the sort hold, of each key, a prefix of that
      key's elements in input order. */
  lemma TakeIsStable<T>(s: seq<T>, key: T -> int, n: nat, v: int)
    ensures |Filter(Take(SortBy(s, key), n), KeyIs(key, v))| <= |Filter(s, KeyIs(key, v))|
    ensures Filter(Take(SortBy(s, key), n), KeyIs(key, v))
         == Filter(s, KeyIs(key, v))[..|Filter(Take(SortBy(s, key), n), KeyIs(key, v))|]
  {
    SortIsStable(s, key, v);
    FilterTake(SortBy(s, key), n, KeyIs(key, v));
  }
}
