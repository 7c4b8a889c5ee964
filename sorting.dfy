/**
 * Python's `list.sort(key=..., reverse=True)`: a stable sort into non-increasing
 * key order. Elements with equal keys keep their original relative order, which
 * is what Timsort guarantees, also with `reverse=True`.
 */
module Sorting {

  predicate SortedDesc<T>(s: seq<T>, key: T -> real) {
    forall i, j :: 0 <= i < j < |s| ==> key(s[i]) >= key(s[j])
  }

  /** Places `x` after every element whose key is at least its own. */
  function Insert<T>(l: seq<T>, x: T, key: T -> real): (r: seq<T>)
    ensures |r| == |l| + 1
  {
    if l == [] then [x]
    else if key(l[0]) >= key(x) then [l[0]] + Insert(l[1..], x, key)
    else [x] + l
  }

  /** Inserting adds exactly `x`. */
  lemma {:induction false} InsertPerm<T>(l: seq<T>, x: T, key: T -> real)
    ensures multiset(Insert(l, x, key)) == multiset(l) + multiset{x}
  {
    if l != [] && key(l[0]) >= key(x) {
      InsertPerm(l[1..], x, key);
      assert l == [l[0]] + l[1..];
    }
  }

  /** Inserting into a sorted sequence keeps it sorted. */
  lemma {:induction false} InsertSorted<T>(l: seq<T>, x: T, key: T -> real)
    requires SortedDesc(l, key)
    ensures SortedDesc(Insert(l, x, key), key)
  {
    if l != [] && key(l[0]) >= key(x) {
      var t := Insert(l[1..], x, key);
      InsertSorted(l[1..], x, key);
      InsertPerm(l[1..], x, key);
      forall j | 0 <= j < |t| ensures key(l[0]) >= key(t[j]) {
        assert t[j] in multiset(t);
        if t[j] != x {
          assert t[j] in multiset(l[1..]);
          var k :| 0 <= k < |l[1..]| && l[1..][k] == t[j];
          assert l[k + 1] == t[j];
        }
      }
      assert Insert(l, x, key) == [l[0]] + t;
    }
  }

  /** Stable sort into non-increasing `key` order. */
  function SortDesc<T>(s: seq<T>, key: T -> real): (r: seq<T>)
    ensures |r| == |s|
  {
    InsertAll([], s, key)
  }

  /** Inserts the elements of `s` into `acc`, first to last. */
  function InsertAll<T>(acc: seq<T>, s: seq<T>, key: T -> real): (r: seq<T>)
    ensures |r| == |acc| + |s|
    decreases |s|
  {
    if s == [] then acc else InsertAll(Insert(acc, s[0], key), s[1..], key)
  }

  /** Inserting into a sorted sequence gives a sorted permutation of both. */
  lemma {:induction false} InsertAllFacts<T>(acc: seq<T>, s: seq<T>, key: T -> real)
    requires SortedDesc(acc, key)
    ensures multiset(InsertAll(acc, s, key)) == multiset(acc) + multiset(s)
    ensures SortedDesc(InsertAll(acc, s, key), key)
    decreases |s|
  {
    if s != [] {
      var next := Insert(acc, s[0], key);
      InsertPerm(acc, s[0], key);
      InsertSorted(acc, s[0], key);
      InsertAllFacts(next, s[1..], key);
      assert s == [s[0]] + s[1..];
    }
  }

  /** The sort is a permutation of its input, in non-increasing key order. */
  lemma SortDescFacts<T>(s: seq<T>, key: T -> real)
    ensures multiset(SortDesc(s, key)) == multiset(s)
    ensures SortedDesc(SortDesc(s, key), key)
  {
    InsertAllFacts([], s, key);
  }

  /** A property every input element has, every sorted element has. */
  lemma SortDescKeeps<T>(s: seq<T>, key: T -> real, p: T -> bool)
    requires forall i :: 0 <= i < |s| ==> p(s[i])
    ensures forall x | x in SortDesc(s, key) :: p(x)
  {
    SortDescFacts(s, key);
    forall x | x in SortDesc(s, key) ensures p(x) {
      assert x in multiset(SortDesc(s, key));
      var i :| 0 <= i < |s| && s[i] == x;
    }
  }

  /** In a sorted sequence, everything in the first `k` outranks everything after. */
  lemma PrefixDominates<T>(r: seq<T>, key: T -> real, k: nat, x: T, y: T)
    requires SortedDesc(r, key) && k <= |r|
    requires x in r[..k] && y in r[k..]
    ensures key(x) >= key(y)
  {
    var i :| 0 <= i < k && r[i] == x;
    var j :| 0 <= j < |r| - k && r[k..][j] == y;
    assert r[k + j] == y;
  }

  lemma SortedTail<T>(s: seq<T>, key: T -> real, k: nat)
    requires SortedDesc(s, key) && k <= |s|
    ensures SortedDesc(s[..k], key) && SortedDesc(s[k..], key)
  {
  }

  /** `[x]` when `x` has key `k`, otherwise nothing. */
  function Pick<T>(x: T, key: T -> real, k: real): seq<T> {
    if key(x) == k then [x] else []
  }

  /** The elements of `s` whose key is `k`, in their order in `s`. */
  function Having<T>(s: seq<T>, key: T -> real, k: real): seq<T> {
    if s == [] then [] else Pick(s[0], key, k) + Having(s[1..], key, k)
  }

  lemma {:induction false} HavingNone<T>(s: seq<T>, key: T -> real, k: real)
    requires forall i :: 0 <= i < |s| ==> key(s[i]) < k
    ensures Having(s, key, k) == []
  {
    if s != [] {
      HavingNone(s[1..], key, k);
    }
  }

  lemma HavingCons<T>(x: T, s: seq<T>, key: T -> real, k: real)
    ensures Having([x] + s, key, k) == Pick(x, key, k) + Having(s, key, k)
  {
    assert ([x] + s)[1..] == s;
  }

  /** Inserting `x` puts it after every element of equal key. */
  lemma {:induction false} InsertStable<T>(l: seq<T>, x: T, key: T -> real, k: real)
    requires SortedDesc(l, key)
    ensures Having(Insert(l, x, key), key, k) == Having(l, key, k) + Pick(x, key, k)
  {
    if l == [] {
      HavingCons(x, [], key, k);
    } else if key(l[0]) >= key(x) {
      var rest := Insert(l[1..], x, key);
      SortedTail(l, key, 1);
      InsertStable(l[1..], x, key, k);
      HavingCons(l[0], rest, key, k);
      HavingCons(l[0], l[1..], key, k);
      assert l == [l[0]] + l[1..];
    } else {
      HavingCons(x, l, key, k);
      if key(x) == k {
        HavingNone(l, key, k);
      }
    }
  }

  lemma ConcatAssoc<T>(a: seq<T>, b: seq<T>, c: seq<T>)
    ensures (a + b) + c == a + (b + c)
  {
  }

  lemma {:induction false} InsertAllStable<T>(acc: seq<T>, s: seq<T>, key: T -> real, k: real)
    requires SortedDesc(acc, key)
    ensures Having(InsertAll(acc, s, key), key, k) == Having(acc, key, k) + Having(s, key, k)
    decreases |s|
  {
    if s != [] {
      var next := Insert(acc, s[0], key);
      InsertStable(acc, s[0], key, k);
      InsertSorted(acc, s[0], key);
      InsertAllStable(next, s[1..], key, k);
      var a, p, h := Having(acc, key, k), Pick(s[0], key, k), Having(s[1..], key, k);
      assert InsertAll(acc, s, key) == InsertAll(next, s[1..], key);
      assert Having(s, key, k) == p + h;
      ConcatAssoc(a, p, h);
    }
  }

  /**
   * The sort is stable: for every key value, the elements with that key come
   * out in the order they went in.
   */
  lemma SortDescStable<T>(s: seq<T>, key: T -> real, k: real)
    ensures Having(SortDesc(s, key), key, k) == Having(s, key, k)
  {
    InsertAllStable([], s, key, k);
  }
}
