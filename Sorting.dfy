/**
 * `Array.prototype.sort` with a comparator of the form
 * `(left, right) => key(right) - key(left)`, as the repository uses it: a
 * stable sort into descending key order. The model is an insertion sort; the
 * lemmas state what every stable descending sort delivers: a permutation,
 * ordered, that keeps the input order of equal keys, so its head is the first
 * element of largest key, and that leaves an ordered input unchanged.
 */
module Sorting {

  /** Keys never increase from left to right. */
  predicate SortedDesc<T>(s: seq<T>, key: T -> real) {
    forall i, j | 0 <= i < j < |s| :: key(s[i]) >= key(s[j])
  }

  /** Inserts `x` in front of the first element whose key is not larger. */
  function Insert<T>(x: T, ys: seq<T>, key: T -> real): (r: seq<T>)
    ensures |r| == |ys| + 1
    ensures multiset(r) == multiset(ys) + multiset{x}
    ensures r[0] == x || (ys != [] && r[0] == ys[0])
  {
    if ys == [] || key(x) >= key(ys[0]) then [x] + ys
    else
      var tail := Insert(x, ys[1..], key);
      assert ys == [ys[0]] + ys[1..];
      [ys[0]] + tail
  }

  /** Inserting into an ordered sequence keeps it ordered. */
  lemma {:induction false} InsertSorted<T>(x: T, ys: seq<T>, key: T -> real)
    requires SortedDesc(ys, key)
    ensures SortedDesc(Insert(x, ys, key), key)
    decreases |ys|
  {
    if ys == [] || key(x) >= key(ys[0]) {
      forall j | 0 <= j < |ys| ensures key(x) >= key(ys[j]) {
        assert j == 0 || key(ys[0]) >= key(ys[j]);
      }
      ConsSorted(x, ys, key);
    } else {
      assert SortedDesc(ys[1..], key);
      InsertSorted(x, ys[1..], key);
      InsertBelowHead(x, ys, key);
      ConsSorted(ys[0], Insert(x, ys[1..], key), key);
    }
  }

  /** An element no smaller than every key of an ordered sequence can go in
      front of it. */
  lemma ConsSorted<T>(h: T, t: seq<T>, key: T -> real)
    requires SortedDesc(t, key)
    requires forall j | 0 <= j < |t| :: key(h) >= key(t[j])
    ensures SortedDesc([h] + t, key)
  {
    var r := [h] + t;
    forall i, j | 0 <= i < j < |r| ensures key(r[i]) >= key(r[j]) {
      assert r[j] == t[j - 1];
      if i > 0 {
        assert r[i] == t[i - 1];
      }
    }
  }

  /** Inserting an element of smaller key after the head of an ordered
      sequence yields elements no larger than that head. */
  lemma InsertBelowHead<T>(x: T, ys: seq<T>, key: T -> real)
    requires SortedDesc(ys, key) && ys != [] && key(x) < key(ys[0])
    ensures var tail := Insert(x, ys[1..], key);
            forall j | 0 <= j < |tail| :: key(ys[0]) >= key(tail[j])
  {
    var tail := Insert(x, ys[1..], key);
    forall j | 0 <= j < |tail| ensures key(ys[0]) >= key(tail[j]) {
      var y := tail[j];
      assert y in multiset(tail);
      if y != x {
        assert y in multiset(ys[1..]);
        var k :| 0 <= k < |ys[1..]| && ys[1..][k] == y;
        assert ys[k + 1] == y;
      }
    }
  }

  /** The stable descending sort. */
  function SortDesc<T>(s: seq<T>, key: T -> real): (r: seq<T>)
    ensures |r| == |s|
    ensures multiset(r) == multiset(s)
    ensures SortedDesc(r, key)
  {
    if s == [] then []
    else
      assert s == [s[0]] + s[1..];
      var rest := SortDesc(s[1..], key);
      InsertSorted(s[0], rest, key);
      Insert(s[0], rest, key)
  }

  /** The elements of `s` whose key equals `k`, in their order in `s`. */
  function WithKey<T>(s: seq<T>, key: T -> real, k: real): seq<T> {
    if s == [] then [] else (if key(s[0]) == k then [s[0]] else []) + WithKey(s[1..], key, k)
  }

  lemma {:induction false} WithKeyInsert<T>(x: T, ys: seq<T>, key: T -> real, k: real)
    ensures WithKey(Insert(x, ys, key), key, k)
         == (if key(x) == k then [x] else []) + WithKey(ys, key, k)
    decreases |ys|
  {
    var r := Insert(x, ys, key);
    if ys == [] || key(x) >= key(ys[0]) {
      assert r == [x] + ys;
      WithKeyCons(x, ys, key, k);
    } else {
      var tail := Insert(x, ys[1..], key);
      WithKeyInsert(x, ys[1..], key, k);
      assert r == [ys[0]] + tail;
      WithKeyCons(ys[0], tail, key, k);
      assert ys == [ys[0]] + ys[1..];
      WithKeyCons(ys[0], ys[1..], key, k);
      // x's key is below ys[0]'s, so at most one of them carries k.
      SwapWhenOneEmpty(if key(ys[0]) == k then [ys[0]] else [], if key(x) == k then [x] else [],
                       WithKey(ys[1..], key, k));
    }
  }

  lemma WithKeyCons<T>(h: T, t: seq<T>, key: T -> real, k: real)
    ensures WithKey([h] + t, key, k) == (if key(h) == k then [h] else []) + WithKey(t, key, k)
  {
    assert ([h] + t)[1..] == t;
  }

  lemma SwapWhenOneEmpty<T>(a: seq<T>, b: seq<T>, w: seq<T>)
    requires a == [] || b == []
    ensures a + (b + w) == b + (a + w)
  {
    if a == [] {
      assert a + (b + w) == b + w == b + (a + w);
    } else {
      assert a + (b + w) == a + w == b + (a + w);
    }
  }

  /** Stability: for every key value, the elements that carry it keep their
      relative input order. */
  lemma {:induction false} SortDescStable<T>(s: seq<T>, key: T -> real, k: real)
    ensures WithKey(SortDesc(s, key), key, k) == WithKey(s, key, k)
  {
    if s != [] {
      SortDescStable(s[1..], key, k);
      WithKeyInsert(s[0], SortDesc(s[1..], key), key, k);
    }
  }

  /** Sorting an ordered sequence changes nothing. */
  lemma {:induction false} SortDescOfSorted<T>(s: seq<T>, key: T -> real)
    requires SortedDesc(s, key)
    ensures SortDesc(s, key) == s
  {
    if s != [] {
      assert SortedDesc(s[1..], key);
      SortDescOfSorted(s[1..], key);
      assert s == [s[0]] + s[1..];
    }
  }

  /** Sorting twice is sorting once. */
  lemma SortDescIdempotent<T>(s: seq<T>, key: T -> real)
    ensures SortDesc(SortDesc(s, key), key) == SortDesc(s, key)
  {
    SortDescOfSorted(SortDesc(s, key), key);
  }

  /** The index of the first element of largest key. */
  function FirstMaxIndex<T>(s: seq<T>, key: T -> real): (m: nat)
    requires s != []
    ensures m < |s|
    ensures forall j | 0 <= j < |s| :: key(s[j]) <= key(s[m])
    ensures forall j | 0 <= j < m :: key(s[j]) < key(s[m])
  {
    if |s| == 1 then 0
    else
      var m := FirstMaxIndex(s[1..], key);
      if key(s[0]) >= key(s[1..][m]) then 0 else m + 1
  }

  /** The head of the sorted sequence is the first element of largest key:
      a later element with an equal key never overtakes it. */
  lemma {:induction false} SortDescHead<T>(s: seq<T>, key: T -> real)
    requires s != []
    ensures SortDesc(s, key)[0] == s[FirstMaxIndex(s, key)]
  {
    if |s| > 1 {
      var rest := SortDesc(s[1..], key);
      SortDescHead(s[1..], key);
      var m := FirstMaxIndex(s[1..], key);
      assert rest[0] == s[1..][m];
    }
  }
}
