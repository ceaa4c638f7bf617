/** The stable sort that `Array.prototype.sort` performs with a numeric
    comparator `(a, b) => key(a) - key(b)`, written as an insertion sort. */
module Sorting {
  import opened Sequences

  /** `s` is in ascending order of `key`. */
  predicate SortedBy<T>(s: seq<T>, key: T -> int)
  {
    forall i, j :: 0 <= i < j < |s| ==> key(s[i]) <= key(s[j])
  }

  /** Inserts `x` before the first element whose key is not smaller. */
  function Insert<T>(x: T, s: seq<T>, key: T -> int): (r: seq<T>)
    requires SortedBy(s, key)
    ensures SortedBy(r, key)
    ensures multiset(r) == multiset(s) + multiset{x}
    ensures |r| == |s| + 1
  {
    if s == [] then [x]
    else if key(x) <= key(s[0]) then
      ConsSorted(x, s, key);
      [x] + s
    else
      var rest := Insert(x, s[1..], key);
      assert s == [s[0]] + s[1..];
      BoundedBelow(key(s[0]), s[1..], x, rest, key);
      ConsSorted(s[0], rest, key);
      [s[0]] + rest
  }

  /** A rearrangement of `s` plus `x` keeps a lower bound that `s` and `x` share. */
  lemma BoundedBelow<T>(lo: int, s: seq<T>, x: T, rest: seq<T>, key: T -> int)
    requires SortedBy(s, key) && (s != [] ==> lo <= key(s[0])) && lo <= key(x)
    requires multiset(rest) == multiset(s) + multiset{x}
    ensures forall k :: 0 <= k < |rest| ==> lo <= key(rest[k])
  {
    forall k | 0 <= k < |rest| ensures lo <= key(rest[k]) {
      assert rest[k] in multiset(rest);
      if rest[k] != x {
        assert rest[k] in multiset(s);
        var i :| 0 <= i < |s| && s[i] == rest[k];
        assert key(s[0]) <= key(s[i]);
      }
    }
  }

  /** An element no greater than everything in a sorted sequence can go in front of it. */
  lemma ConsSorted<T>(a: T, rest: seq<T>, key: T -> int)
    requires SortedBy(rest, key)
    requires forall k :: 0 <= k < |rest| ==> key(a) <= key(rest[k])
    ensures SortedBy([a] + rest, key)
  {
    var r := [a] + rest;
    forall i, j | 0 <= i < j < |r| ensures key(r[i]) <= key(r[j]) {
      assert r[j] == rest[j - 1];
      if i > 0 {
        assert r[i] == rest[i - 1];
      }
    }
  }

  /** The elements of `s` in ascending order of `key`. */
  function SortBy<T>(s: seq<T>, key: T -> int): (r: seq<T>)
    ensures SortedBy(r, key)
    ensures multiset(r) == multiset(s)
    ensures |r| == |s|
  {
    if s == [] then []
    else
      assert s == [s[0]] + s[1..];
      Insert(s[0], SortBy(s[1..], key), key)
  }

  /** The elements whose key is `v`. */
  function KeyIs<T>(key: T -> int, v: int): T -> bool
  {
    x => key(x) == v
  }

  /** Inserting `x` puts it in front of every element with its key and leaves the other ties alone. */
  lemma {:induction false} InsertKeepsTies<T>(x: T, s: seq<T>, key: T -> int, v: int)
    requires SortedBy(s, key)
    ensures Filter(Insert(x, s, key), KeyIs(key, v)) == (if key(x) == v then [x] else []) + Filter(s, KeyIs(key, v))
  {
    var p := KeyIs(key, v);
    if s == [] {
      assert Insert(x, s, key) == [x];
      assert [x][1..] == [];
    } else if key(x) <= key(s[0]) {
      var r := [x] + s;
      assert Insert(x, s, key) == r;
      assert r[0] == x && r[1..] == s;
    } else {
      var rest := Insert(x, s[1..], key);
      var r := [s[0]] + rest;
      assert Insert(x, s, key) == r;
      assert r[0] == s[0] && r[1..] == rest;
      assert SortedBy(s[1..], key);
      InsertKeepsTies(x, s[1..], key, v);
      if key(x) == v {
        assert !p(s[0]);
      }
    }
  }

  /**
   * The sort is stable: the elements with any one key value come out in the
   * order they went in.
   */
  lemma {:induction false} SortStable<T>(s: seq<T>, key: T -> int, v: int)
    ensures Filter(SortBy(s, key), KeyIs(key, v)) == Filter(s, KeyIs(key, v))
  {
    if s != [] {
      SortStable(s[1..], key, v);
      InsertKeepsTies(s[0], SortBy(s[1..], key), key, v);
    }
  }

  /** Sorting changes nothing in an already sorted sequence. */
  lemma {:induction false} SortSorted<T>(s: seq<T>, key: T -> int)
    requires SortedBy(s, key)
    ensures SortBy(s, key) == s
  {
    if s != [] {
      assert SortedBy(s[1..], key);
      SortSorted(s[1..], key);
    }
  }

  /** Sorting is idempotent. */
  lemma SortIdempotent<T>(s: seq<T>, key: T -> int)
    ensures SortBy(SortBy(s, key), key) == SortBy(s, key)
  {
    SortSorted(SortBy(s, key), key);
  }
}
