/**
 * Ordering rows by a name: `a.name.localeCompare(b.name)` in a `sort`
 * comparator. Names are compared character by character on their code
 * points, a proper prefix coming first.
 */
module TextOrder {

  /** `a` comes no later than `b`. */
  predicate NameLe(a: string, b: string)
    decreases |a|
  {
    a == [] || (b != [] && (a[0] < b[0] || (a[0] == b[0] && NameLe(a[1..], b[1..]))))
  }

  lemma {:induction false} NameLeTotal(a: string, b: string)
    ensures NameLe(a, b) || NameLe(b, a)
    decreases |a|
  {
    if a != [] && b != [] && a[0] == b[0] {
      NameLeTotal(a[1..], b[1..]);
    }
  }

  lemma {:induction false} NameLeTransitive(a: string, b: string, c: string)
    requires NameLe(a, b) && NameLe(b, c)
    ensures NameLe(a, c)
    decreases |a|
  {
    if a != [] && a[0] == b[0] && b[0] == c[0] {
      NameLeTransitive(a[1..], b[1..], c[1..]);
    }
  }

  /** Two names that each come no later than the other are the same name. */
  lemma {:induction false} NameLeAntisymmetric(a: string, b: string)
    requires NameLe(a, b) && NameLe(b, a)
    ensures a == b
    decreases |a|
  {
    if a != [] {
      NameLeAntisymmetric(a[1..], b[1..]);
      assert a == [a[0]] + a[1..] && b == [b[0]] + b[1..];
    }
  }

  predicate SortedByName<T>(s: seq<T>, name: T -> string) {
    forall i, j :: 0 <= i < j < |s| ==> NameLe(name(s[i]), name(s[j]))
  }

  /** Every name in `s` comes no earlier than `m`. */
  predicate NamedFrom<T>(s: seq<T>, m: string, name: T -> string) {
    forall k :: 0 <= k < |s| ==> NameLe(m, name(s[k]))
  }

  /** Inserts `x` before the first element whose name comes strictly after its own. */
  function InsertByName<T>(r: seq<T>, x: T, name: T -> string): (r': seq<T>)
    requires SortedByName(r, name)
    ensures SortedByName(r', name)
    ensures multiset(r') == multiset(r) + multiset{x}
    ensures forall m :: NamedFrom(r, m, name) && NameLe(m, name(x)) ==> NamedFrom(r', m, name)
  {
    if r == [] || !NameLe(name(r[0]), name(x)) then
      BelowFirst(r, x, name);
      ConsNamed(x, r, name);
      [x] + r
    else
      var t := InsertByName(r[1..], x, name);
      assert NamedFrom(r[1..], name(r[0]), name);
      assert forall m :: NamedFrom(r, m, name) ==> NamedFrom(r[1..], m, name);
      ConsNamed(r[0], t, name);
      assert r == [r[0]] + r[1..];
      [r[0]] + t
  }

  /** An element whose name does not come after the first name of a sorted list comes before all of it. */
  lemma BelowFirst<T>(r: seq<T>, x: T, name: T -> string)
    requires SortedByName(r, name)
    requires r != [] ==> !NameLe(name(r[0]), name(x))
    ensures NamedFrom(r, name(x), name)
  {
    if r != [] {
      NameLeTotal(name(r[0]), name(x));
      forall k | 0 <= k < |r| ensures NameLe(name(x), name(r[k])) {
        if k > 0 {
          NameLeTransitive(name(x), name(r[0]), name(r[k]));
        }
      }
    }
  }

  lemma ConsNamed<T>(x: T, t: seq<T>, name: T -> string)
    requires SortedByName(t, name) && NamedFrom(t, name(x), name)
    ensures SortedByName([x] + t, name)
    ensures forall m :: NameLe(m, name(x)) ==> NamedFrom([x] + t, m, name)
  {
    var s := [x] + t;
    forall i, j | 0 <= i < j < |s| ensures NameLe(name(s[i]), name(s[j])) {
      assert s[j] == t[j - 1];
      if i > 0 {
        assert s[i] == t[i - 1];
      }
    }
    forall m | NameLe(m, name(x)) ensures NamedFrom(s, m, name) {
      forall k | 0 <= k < |s| ensures NameLe(m, name(s[k])) {
        if k > 0 {
          assert s[k] == t[k - 1];
          NameLeTransitive(m, name(x), name(s[k]));
        }
      }
    }
  }

  /** `sort` by name: ordered by name, and a permutation of `s`. */
  function SortByName<T>(s: seq<T>, name: T -> string): (r: seq<T>)
    ensures SortedByName(r, name)
    ensures multiset(r) == multiset(s)
  {
    if s == [] then []
    else
      assert s == [s[0]] + s[1..];
      InsertByName(SortByName(s[1..], name), s[0], name)
  }
}
