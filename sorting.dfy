/**
  Python's `list.sort(key=..., reverse=True)` on values: a stable sort into non-increasing key
  order, and the `[:n]` slice taken of its result.
*/
module Sorting {

  /** A sort key: an integer, or a pair of integers compared lexicographically. */
  datatype Key = Key(major: int, minor: int)

  predicate KeyLt(a: Key, b: Key) {
    a.major < b.major || (a.major == b.major && a.minor < b.minor)
  }

  predicate KeyLe(a: Key, b: Key) {
    KeyLt(a, b) || a == b
  }

  /** Non-increasing by key, as `reverse=True` orders. */
  ghost predicate SortedDesc<T>(s: seq<T>, key: T -> Key) {
    forall i, j :: 0 <= i < j < |s| ==> KeyLe(key(s[j]), key(s[i]))
  }

  /** The elements with key `k`, in their order in `s`. */
  function WithKey<T>(s: seq<T>, key: T -> Key, k: Key): (r: seq<T>)
    ensures |r| <= |s|
  {
    if s == [] then []
    else (if key(s[0]) == k then [s[0]] else []) + WithKey(s[1..], key, k)
  }

  /** Puts `x` after every element of `s` whose key is not smaller than its own. */
  function Insert<T>(x: T, s: seq<T>, key: T -> Key): (r: seq<T>)
    ensures |r| == |s| + 1 && multiset(r) == multiset(s) + multiset{x}
  {
    if s == [] then [x]
    else if KeyLt(key(s[0]), key(x)) then [x] + s
    else
      assert s == [s[0]] + s[1..];
      [s[0]] + Insert(x, s[1..], key)
  }

  /** `sorted(s, key=key, reverse=True)`: each element is inserted after its equals. */
  function SortDesc<T>(s: seq<T>, key: T -> Key): (r: seq<T>)
    ensures |r| == |s| && multiset(r) == multiset(s)
    decreases |s|
  {
    if s == [] then []
    else
      assert s == s[..|s| - 1] + [s[|s| - 1]];
      Insert(s[|s| - 1], SortDesc(s[..|s| - 1], key), key)
  }

  /** An upper bound on the keys of `s` and of `x` bounds the keys after insertion. */
  lemma {:induction false} InsertBounded<T>(x: T, s: seq<T>, key: T -> Key, b: Key)
    requires KeyLe(key(x), b) && forall i :: 0 <= i < |s| ==> KeyLe(key(s[i]), b)
    ensures forall i :: 0 <= i < |Insert(x, s, key)| ==> KeyLe(key(Insert(x, s, key)[i]), b)
    decreases |s|
  {
    if s != [] && !KeyLt(key(s[0]), key(x)) {
      InsertBounded(x, s[1..], key, b);
      assert Insert(x, s, key) == [s[0]] + Insert(x, s[1..], key);
    }
  }

  lemma {:induction false} InsertSorted<T>(x: T, s: seq<T>, key: T -> Key)
    requires SortedDesc(s, key)
    ensures SortedDesc(Insert(x, s, key), key)
    decreases |s|
  {
    if s != [] && !KeyLt(key(s[0]), key(x)) {
      var t := Insert(x, s[1..], key);
      InsertSorted(x, s[1..], key);
      InsertBounded(x, s[1..], key, key(s[0]));
      assert Insert(x, s, key) == [s[0]] + t;
    }
  }

  lemma WithKeyAppend<T>(a: seq<T>, b: seq<T>, key: T -> Key, k: Key)
    ensures WithKey(a + b, key, k) == WithKey(a, key, k) + WithKey(b, key, k)
  {
    if a == [] {
      assert a + b == b;
    } else {
      assert (a + b)[1..] == a[1..] + b;
    }
  }

  lemma WithKeySnoc<T>(s: seq<T>, key: T -> Key, k: Key)
    requires s != []
    ensures WithKey(s, key, k) == WithKey(s[..|s| - 1], key, k) + WithKey([s[|s| - 1]], key, k)
  {
    assert s == s[..|s| - 1] + [s[|s| - 1]];
    WithKeyAppend(s[..|s| - 1], [s[|s| - 1]], key, k);
  }

  /** No element of `s` with key `k`. */
  lemma WithKeyNone<T>(s: seq<T>, key: T -> Key, k: Key)
    requires forall i :: 0 <= i < |s| ==> key(s[i]) != k
    ensures WithKey(s, key, k) == []
  {
    if s != [] {
      WithKeyNone(s[1..], key, k);
    }
  }

  /** Inserting keeps the order of every key group and puts `x` last in its own. */
  lemma {:induction false} InsertWithKey<T>(x: T, s: seq<T>, key: T -> Key, k: Key)
    requires SortedDesc(s, key)
    ensures WithKey(Insert(x, s, key), key, k) == WithKey(s, key, k) + WithKey([x], key, k)
    decreases |s|
  {
    if s == [] {
    } else if KeyLt(key(s[0]), key(x)) {
      if key(x) == k {
        WithKeyNone(s, key, k);
      }
      assert Insert(x, s, key) == [x] + s;
      WithKeyAppend([x], s, key, k);
    } else {
      assert SortedDesc(s[1..], key);
      InsertWithKey(x, s[1..], key, k);
      assert Insert(x, s, key) == [s[0]] + Insert(x, s[1..], key);
      WithKeyAppend([s[0]], Insert(x, s[1..], key), key, k);
      WithKeyAppend([s[0]], s[1..], key, k);
      assert [s[0]] + s[1..] == s;
    }
  }

  /** The sort yields a non-increasing permutation of its input. */
  lemma {:induction false} SortDescSorted<T>(s: seq<T>, key: T -> Key)
    ensures SortedDesc(SortDesc(s, key), key)
    decreases |s|
  {
    if s != [] {
      SortDescSorted(s[..|s| - 1], key);
      InsertSorted(s[|s| - 1], SortDesc(s[..|s| - 1], key), key);
    }
  }

  /** The sort is stable: the elements of each key keep their input order. */
  lemma {:induction false} SortDescStable<T>(s: seq<T>, key: T -> Key, k: Key)
    ensures WithKey(SortDesc(s, key), key, k) == WithKey(s, key, k)
    decreases |s|
  {
    if s != [] {
      var p, x := s[..|s| - 1], s[|s| - 1];
      SortDescStable(p, key, k);
      SortDescSorted(p, key);
      InsertWithKey(x, SortDesc(p, key), key, k);
      WithKeySnoc(s, key, k);
    }
  }

  /** Non-increasing by `key`, and by `tie` among elements of equal `key`. */
  ghost predicate SortedThen<T>(s: seq<T>, key: T -> Key, tie: T -> Key) {
    forall i, j :: 0 <= i < j < |s| ==>
      KeyLe(key(s[j]), key(s[i])) && (key(s[j]) == key(s[i]) ==> KeyLe(tie(s[j]), tie(s[i])))
  }

  /** Every element of `Insert(x, s, key)` is `x` or an element of `s`. */
  lemma InsertFrom<T>(x: T, s: seq<T>, key: T -> Key)
    ensures forall i :: 0 <= i < |Insert(x, s, key)| ==> Insert(x, s, key)[i] == x || Insert(x, s, key)[i] in s
  {
    var t := Insert(x, s, key);
    forall i | 0 <= i < |t| ensures t[i] == x || t[i] in s {
      assert t[i] in multiset(t);
    }
  }

  /** An element heading a list it is not below, by `key` and then by `tie`. */
  lemma ConsThen<T>(h: T, t: seq<T>, key: T -> Key, tie: T -> Key)
    requires SortedThen(t, key, tie)
    requires forall j :: 0 <= j < |t| ==> KeyLe(key(t[j]), key(h)) && (key(t[j]) == key(h) ==> KeyLe(tie(t[j]), tie(h)))
    ensures SortedThen([h] + t, key, tie)
  {
    var u := [h] + t;
    forall i, j | 0 <= i < j < |u|
      ensures KeyLe(key(u[j]), key(u[i])) && (key(u[j]) == key(u[i]) ==> KeyLe(tie(u[j]), tie(u[i])))
    {
      assert u[j] == t[j - 1];
      if i > 0 {
        assert u[i] == t[i - 1];
      }
    }
  }

  /** Inserting an element whose `tie` is not above any other's keeps ties ordered by `tie`. */
  lemma {:induction false} InsertThen<T>(x: T, s: seq<T>, key: T -> Key, tie: T -> Key)
    requires SortedThen(s, key, tie)
    requires forall i :: 0 <= i < |s| ==> KeyLe(tie(x), tie(s[i]))
    ensures SortedThen(Insert(x, s, key), key, tie)
    decreases |s|
  {
    if s == [] {
    } else if KeyLt(key(s[0]), key(x)) {
      ConsThen(x, s, key, tie);
    } else {
      var r := s[1..];
      var t := Insert(x, r, key);
      InsertThen(x, r, key, tie);
      InsertBounded(x, r, key, key(s[0]));
      InsertFrom(x, r, key);
      forall j | 0 <= j < |t| && key(t[j]) == key(s[0]) ensures KeyLe(tie(t[j]), tie(s[0])) {
        if t[j] != x {
          var k :| 0 <= k < |r| && r[k] == t[j];
          assert s[k + 1] == t[j];
        }
      }
      ConsThen(s[0], t, key, tie);
    }
  }

  /**
    Sorting a list already non-increasing by `tie` orders it by `key` and, because the sort is
    stable, leaves elements of equal `key` in non-increasing `tie` order.
  */
  lemma {:induction false} SortDescThen<T>(s: seq<T>, key: T -> Key, tie: T -> Key)
    requires SortedDesc(s, tie)
    ensures SortedThen(SortDesc(s, key), key, tie)
    decreases |s|
  {
    if s != [] {
      var p, x := s[..|s| - 1], s[|s| - 1];
      SortDescThen(p, key, tie);
      var t := SortDesc(p, key);
      forall i | 0 <= i < |t| ensures KeyLe(tie(x), tie(t[i])) {
        assert t[i] in multiset(p);
        var k :| 0 <= k < |p| && p[k] == t[i];
        assert s[k] == t[i];
      }
      InsertThen(x, t, key, tie);
    }
  }

  /** Every element of the sorted list comes from the input. */
  lemma SortDescFrom<T>(s: seq<T>, key: T -> Key)
    ensures forall i :: 0 <= i < |SortDesc(s, key)| ==> SortDesc(s, key)[i] in s
  {
    forall i | 0 <= i < |SortDesc(s, key)| ensures SortDesc(s, key)[i] in s {
      assert SortDesc(s, key)[i] in multiset(SortDesc(s, key));
    }
  }

  /** Python's `s[:n]`: a negative `n` counts from the end, and an oversized one takes everything. */
  function SliceTo<T>(s: seq<T>, n: int): seq<T> {
    if n >= 0 then s[..if n < |s| then n else |s|]
    else s[..if |s| + n > 0 then |s| + n else 0]
  }

  /** The top of a sorted list is its longest prefix of the asked-for length, in sorted order. */
  lemma SliceToPrefix<T>(s: seq<T>, key: T -> Key, n: int)
    requires SortedDesc(s, key)
    ensures SortedDesc(SliceTo(s, n), key)
    ensures |SliceTo(s, n)| <= |s| && SliceTo(s, n) == s[..|SliceTo(s, n)|]
    ensures forall i, j :: 0 <= i < |SliceTo(s, n)| <= j < |s| ==> KeyLe(key(s[j]), key(s[i]))
  {
  }
}
