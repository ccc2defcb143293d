/**
 * Array.prototype.sort as the source uses it: every call site sorts by an integer
 * date key with a comparator that does not order ties consistently, so the only
 * promise kept is "ascending by the key, and a permutation of the input".
 */
module Sorting {

  predicate SortedBy<T>(s: seq<T>, key: T -> int) {
    forall i, j :: 0 <= i < j < |s| ==> key(s[i]) <= key(s[j])
  }

  /** No key in `s` is below `m`. */
  predicate AtLeast<T>(s: seq<T>, m: int, key: T -> int) {
    forall k :: 0 <= k < |s| ==> m <= key(s[k])
  }

  /** Inserts `x` into the sorted list after every element whose key is not greater than its own. */
  function Insert<T>(r: seq<T>, x: T, key: T -> int): (r': seq<T>)
    requires SortedBy(r, key)
    ensures SortedBy(r', key)
    ensures multiset(r') == multiset(r) + multiset{x}
    ensures forall m :: AtLeast(r, m, key) && m <= key(x) ==> AtLeast(r', m, key)
  {
    if r == [] || key(x) < key(r[0]) then
      ConsSorted(x, r, key);
      [x] + r
    else
      var t := Insert(r[1..], x, key);
      InsertBehind(r, x, key, t);
      [r[0]] + t
  }

  /** The step of `Insert` that keeps the head and inserts into the tail. */
  lemma InsertBehind<T>(r: seq<T>, x: T, key: T -> int, t: seq<T>)
    requires SortedBy(r, key) && r != [] && key(r[0]) <= key(x)
    requires SortedBy(t, key) && multiset(t) == multiset(r[1..]) + multiset{x}
    requires forall m :: AtLeast(r[1..], m, key) && m <= key(x) ==> AtLeast(t, m, key)
    ensures SortedBy([r[0]] + t, key)
    ensures multiset([r[0]] + t) == multiset(r) + multiset{x}
    ensures forall m :: AtLeast(r, m, key) && m <= key(x) ==> AtLeast([r[0]] + t, m, key)
  {
    assert AtLeast(r[1..], key(r[0]), key);
    assert forall m :: AtLeast(r, m, key) ==> AtLeast(r[1..], m, key);
    ConsSorted(r[0], t, key);
    assert r == [r[0]] + r[1..];
  }

  lemma ConsSorted<T>(x: T, t: seq<T>, key: T -> int)
    requires SortedBy(t, key) && AtLeast(t, key(x), key)
    ensures SortedBy([x] + t, key)
    ensures forall m :: m <= key(x) ==> AtLeast([x] + t, m, key)
  {
    var s := [x] + t;
    forall i, j | 0 <= i < j < |s| ensures key(s[i]) <= key(s[j]) {
      assert s[j] == t[j - 1];
      if i > 0 {
        assert s[i] == t[i - 1];
      }
    }
  }

  /** Insertion sort: sorted by the key, and a permutation of `s`. */
  function SortByKey<T>(s: seq<T>, key: T -> int): (r: seq<T>)
    ensures SortedBy(r, key)
    ensures multiset(r) == multiset(s)
  {
    if s == [] then []
    else
      assert s == [s[0]] + s[1..];
      Insert(SortByKey(s[1..], key), s[0], key)
  }

  /** Keys strictly increasing: no two elements share a key. */
  predicate StrictlySortedBy<T>(s: seq<T>, key: T -> int) {
    forall i, j :: 0 <= i < j < |s| ==> key(s[i]) < key(s[j])
  }

  /**
   * When no two elements share a key the sorted order is unique: any sorted
   * permutation of a strictly ordered sequence is that sequence, whatever the
   * sort does with ties.
   */
  lemma {:induction false} SortedUnique<T>(a: seq<T>, b: seq<T>, key: T -> int)
    requires SortedBy(a, key) && StrictlySortedBy(b, key) && multiset(a) == multiset(b)
    ensures a == b
  {
    assert |a| == |multiset(a)| == |multiset(b)| == |b|;
    if a != [] {
      SameHead(a, b, key);
      DropHead(a);
      DropHead(b);
      SortedUnique(a[1..], b[1..], key);
      assert a == [a[0]] + a[1..] && b == [b[0]] + b[1..];
    }
  }

  /** The smallest element of a sorted permutation of a strictly ordered sequence comes first in both. */
  lemma SameHead<T>(a: seq<T>, b: seq<T>, key: T -> int)
    requires SortedBy(a, key) && StrictlySortedBy(b, key) && multiset(a) == multiset(b)
    requires a != [] && |b| == |a|
    ensures a[0] == b[0]
  {
    assert b[0] in multiset(a);
    var j :| 0 <= j < |a| && a[j] == b[0];
    assert a[0] in multiset(b);
    var k :| 0 <= k < |b| && b[k] == a[0];
    assert key(b[k]) <= key(b[0]);
  }

  lemma DropHead<T>(s: seq<T>)
    requires s != []
    ensures multiset(s[1..]) == multiset(s) - multiset{s[0]}
  {
    assert s == [s[0]] + s[1..];
  }
}
