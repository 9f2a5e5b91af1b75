/**
 * A stable sort by an integer key, largest key first: what Python's
 * `sorted(xs, key=k, reverse=True)` returns. Python documents that `reverse=True`
 * keeps sort stability, so elements with equal keys keep their input order.
 */
module Ranking {

  /** Keys never increase from left to right. */
  predicate SortedDesc<T>(s: seq<T>, key: T -> int)
  {
    forall i, j :: 0 <= i < j < |s| ==> key(s[i]) >= key(s[j])
  }

  /** The elements of `s` whose key is `k`, in their order in `s`. */
  function KeyFilter<T>(s: seq<T>, key: T -> int, k: int): seq<T>
  {
    if s == [] then []
    else (if key(s[0]) == k then [s[0]] else []) + KeyFilter(s[1..], key, k)
  }

  /** `r` is a stable descending sort of `s`: sorted by key, and each key class in input order. */
  ghost predicate IsStableSortDesc<T>(r: seq<T>, s: seq<T>, key: T -> int)
  {
    SortedDesc(r, key) && forall k :: KeyFilter(r, key, k) == KeyFilter(s, key, k)
  }

  /** Puts `x` in front of the first element of `s` whose key does not exceed its own. */
  function Insert<T>(x: T, s: seq<T>, key: T -> int): (r: seq<T>)
    ensures |r| == |s| + 1
  {
    if s == [] || key(x) >= key(s[0]) then [x] + s
    else [s[0]] + Insert(x, s[1..], key)
  }

  /** Insertion sort from the back, so that earlier elements land before equal later ones. */
  function SortDesc<T>(s: seq<T>, key: T -> int): (r: seq<T>)
    ensures |r| == |s|
  {
    if s == [] then [] else Insert(s[0], SortDesc(s[1..], key), key)
  }

  lemma KeyFilterCons<T>(x: T, s: seq<T>, key: T -> int, k: int)
    ensures KeyFilter([x] + s, key, k) == (if key(x) == k then [x] else []) + KeyFilter(s, key, k)
  {
  }

  /** Filtering by key distributes over concatenation. */
  lemma {:induction false} KeyFilterConcat<T>(a: seq<T>, b: seq<T>, key: T -> int, k: int)
    ensures KeyFilter(a + b, key, k) == KeyFilter(a, key, k) + KeyFilter(b, key, k)
  {
    if a == [] {
      assert a + b == b;
    } else {
      KeyFilterConcat(a[1..], b, key, k);
      assert a + b == [a[0]] + (a[1..] + b);
      KeyFilterCons(a[0], a[1..] + b, key, k);
      KeyFilterCons(a[0], a[1..], key, k);
      assert a == [a[0]] + a[1..];
    }
  }

  /** Everything the filter keeps comes from `s` and has key `k`. */
  lemma {:induction false} KeyFilterMembers<T>(s: seq<T>, key: T -> int, k: int)
    ensures forall y :: y in KeyFilter(s, key, k) ==> y in s && key(y) == k
  {
    if s != [] {
      KeyFilterMembers(s[1..], key, k);
    }
  }

  /** A filter for a key no element has keeps nothing. */
  lemma {:induction false} KeyFilterNone<T>(s: seq<T>, key: T -> int, k: int)
    requires forall y :: y in s ==> key(y) != k
    ensures KeyFilter(s, key, k) == []
  {
    if s != [] {
      KeyFilterNone(s[1..], key, k);
    }
  }

  lemma SortedPrepend<T>(x: T, t: seq<T>, key: T -> int)
    requires SortedDesc(t, key)
    requires forall y :: y in t ==> key(y) <= key(x)
    ensures SortedDesc([x] + t, key)
  {
  }

  lemma {:induction false} InsertKeepsElements<T>(x: T, s: seq<T>, key: T -> int)
    ensures multiset(Insert(x, s, key)) == multiset(s) + multiset{x}
  {
    if s != [] && key(x) < key(s[0]) {
      InsertKeepsElements(x, s[1..], key);
      assert s == [s[0]] + s[1..];
    }
  }

  lemma SortedTail<T>(s: seq<T>, key: T -> int)
    requires s != [] && SortedDesc(s, key)
    ensures SortedDesc(s[1..], key)
  {
  }

  lemma {:induction false} InsertKeepsOrder<T>(x: T, s: seq<T>, key: T -> int)
    requires SortedDesc(s, key)
    ensures SortedDesc(Insert(x, s, key), key)
  {
    if s == [] || key(x) >= key(s[0]) {
      forall y | y in s ensures key(y) <= key(x) {
        var i :| 0 <= i < |s| && s[i] == y;
        assert key(s[0]) >= key(s[i]) || i == 0;
      }
      SortedPrepend(x, s, key);
    } else {
      var t := Insert(x, s[1..], key);
      SortedTail(s, key);
      InsertKeepsOrder(x, s[1..], key);
      InsertKeepsElements(x, s[1..], key);
      forall y | y in t ensures key(y) <= key(s[0]) {
        assert y in multiset(t);
        if y != x {
          assert y in multiset(s[1..]);
          var i :| 0 <= i < |s[1..]| && s[1..][i] == y;
          assert s[i + 1] == y;
        }
      }
      SortedPrepend(s[0], t, key);
    }
  }

  lemma {:induction false} InsertKeepsKeyOrder<T>(x: T, s: seq<T>, key: T -> int, k: int)
    requires SortedDesc(s, key)
    ensures KeyFilter(Insert(x, s, key), key, k) == (if key(x) == k then [x] else []) + KeyFilter(s, key, k)
  {
    if s == [] || key(x) >= key(s[0]) {
      KeyFilterCons(x, s, key, k);
    } else {
      var t := Insert(x, s[1..], key);
      SortedTail(s, key);
      InsertKeepsKeyOrder(x, s[1..], key, k);
      KeyFilterCons(s[0], t, key, k);
      KeyFilterCons(s[0], s[1..], key, k);
      assert s == [s[0]] + s[1..];
    }
  }

  /** `SortDesc` is a stable descending sort that keeps every element. */
  lemma {:induction false} SortDescIsStable<T>(s: seq<T>, key: T -> int)
    ensures IsStableSortDesc(SortDesc(s, key), s, key)
    ensures multiset(SortDesc(s, key)) == multiset(s)
  {
    if s != [] {
      SortDescIsStable(s[1..], key);
      InsertKeepsOrder(s[0], SortDesc(s[1..], key), key);
      InsertKeepsElements(s[0], SortDesc(s[1..], key), key);
      assert s == [s[0]] + s[1..];
      forall k ensures KeyFilter(SortDesc(s, key), key, k) == KeyFilter(s, key, k) {
        InsertKeepsKeyOrder(s[0], SortDesc(s[1..], key), key, k);
        KeyFilterCons(s[0], s[1..], key, k);
      }
    }
  }

  /**
   * Two sequences sorted by the same key, with the same elements in the same order within
   * every key class, are equal. So any stable descending sort, Python's included, returns
   * exactly `SortDesc`.
   */
  lemma {:induction false} StableSortUnique<T>(r1: seq<T>, r2: seq<T>, key: T -> int)
    requires SortedDesc(r1, key) && SortedDesc(r2, key)
    requires forall k :: KeyFilter(r1, key, k) == KeyFilter(r2, key, k)
    ensures r1 == r2
    decreases |r1|
  {
    if r1 == [] || r2 == [] {
      // A non-empty side keeps its head under the head's key; the empty side keeps nothing.
      var nonEmpty := if r1 != [] then r1 else r2;
      if nonEmpty != [] {
        assert KeyFilter(r1, key, key(nonEmpty[0])) != KeyFilter(r2, key, key(nonEmpty[0]));
        assert false;
      }
    } else {
      var x1, x2 := r1[0], r2[0];
      assert r1 == [x1] + r1[1..] && r2 == [x2] + r2[1..];
      KeyFilterCons(x1, r1[1..], key, key(x1));
      KeyFilterCons(x2, r2[1..], key, key(x2));
      KeyFilterMembers(r2, key, key(x1));
      KeyFilterMembers(r1, key, key(x2));
      assert x1 in KeyFilter(r2, key, key(x1));
      assert x2 in KeyFilter(r1, key, key(x2));
      var i :| 0 <= i < |r2| && r2[i] == x1;
      var j :| 0 <= j < |r1| && r1[j] == x2;
      assert key(x2) >= key(r2[i]) || i == 0;
      assert key(x1) >= key(r1[j]) || j == 0;
      assert key(x1) == key(x2);
      assert KeyFilter(r1, key, key(x1)) == KeyFilter(r2, key, key(x1));
      assert KeyFilter(r1, key, key(x1))[0] == x1;
      assert KeyFilter(r2, key, key(x2))[0] == x2;
      assert x1 == x2;
      forall k ensures KeyFilter(r1[1..], key, k) == KeyFilter(r2[1..], key, k) {
        KeyFilterCons(x1, r1[1..], key, k);
        KeyFilterCons(x2, r2[1..], key, k);
        var head := if key(x1) == k then [x1] else [];
        assert KeyFilter(r1, key, k) == KeyFilter(r2, key, k);
        assert KeyFilter(r1[1..], key, k) == KeyFilter(r1, key, k)[|head|..];
        assert KeyFilter(r2[1..], key, k) == KeyFilter(r2, key, k)[|head|..];
      }
      SortedTail(r1, key);
      SortedTail(r2, key);
      StableSortUnique(r1[1..], r2[1..], key);
    }
  }

  /** Any stable descending sort of `s` is `SortDesc(s)`. */
  lemma StableSortIsSortDesc<T>(r: seq<T>, s: seq<T>, key: T -> int)
    requires IsStableSortDesc(r, s, key)
    ensures r == SortDesc(s, key)
  {
    SortDescIsStable(s, key);
    StableSortUnique(r, SortDesc(s, key), key);
  }

  /** In a sequence sorted highest first, nothing after a cut outranks anything before it. */
  lemma SortedCut<T>(s: seq<T>, m: nat, key: T -> int)
    requires SortedDesc(s, key) && m <= |s|
    ensures SortedDesc(s[..m], key)
    ensures forall x, y :: x in s[m..] && y in s[..m] ==> key(y) >= key(x)
  {
  }
}
