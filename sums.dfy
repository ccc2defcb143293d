/** Sums of a real-valued field over a list, the `reduce((acc, cur) => acc + ...)` of the source. */
module Sums {
  import opened Seqs

  /** The value of `units` units at `price`. */
  function Priced(units: real, price: real): real {
    units * price
  }

  /** The value of `units` units at `price`, converted at `rate`. */
  function Worth(units: real, price: real, rate: real): real {
    units * price * rate
  }

  /** An amount converted at `rate`. */
  function Converted(amount: real, rate: real): real {
    amount * rate
  }

  function Sum<T>(s: seq<T>, f: T -> real): real {
    if s == [] then 0.0 else f(s[0]) + Sum(s[1..], f)
  }

  lemma {:induction false} SumAppend<T>(a: seq<T>, b: seq<T>, f: T -> real)
    ensures Sum(a + b, f) == Sum(a, f) + Sum(b, f)
  {
    if a == [] {
      assert a + b == b;
    } else {
      assert (a + b)[1..] == a[1..] + b;
      SumAppend(a[1..], b, f);
    }
  }

  /** Extending a prefix by one element adds that element's value. */
  lemma SumPrefix<T>(s: seq<T>, i: nat, f: T -> real)
    requires i < |s|
    ensures Sum(s[..i + 1], f) == Sum(s[..i], f) + f(s[i])
  {
    assert s[..i + 1] == s[..i] + [s[i]];
    SumAppend(s[..i], [s[i]], f);
  }

  /** Addition is commutative: reordering the list does not change its sum. */
  lemma {:induction false} SumPermutation<T>(a: seq<T>, b: seq<T>, f: T -> real)
    requires multiset(a) == multiset(b)
    ensures Sum(a, f) == Sum(b, f)
    decreases |a|
  {
    if a == [] {
      assert |b| == |multiset(b)| == 0;
    } else {
      var x := a[0];
      assert x in multiset(b);
      var j :| 0 <= j < |b| && b[j] == x;
      var b' := b[..j] + b[j + 1..];
      assert b == b[..j] + [x] + b[j + 1..];
      assert multiset(b') == multiset(b) - multiset{x};
      assert a == [x] + a[1..];
      SumPermutation(a[1..], b', f);
      SumRemove(b, j, f);
    }
  }

  /** Taking the element at `j` out of the list takes its value out of the sum. */
  lemma SumRemove<T>(b: seq<T>, j: nat, f: T -> real)
    requires j < |b|
    ensures Sum(b, f) == f(b[j]) + Sum(b[..j] + b[j + 1..], f)
  {
    assert b == b[..j] + ([b[j]] + b[j + 1..]);
    SumAppend(b[..j], [b[j]] + b[j + 1..], f);
    assert ([b[j]] + b[j + 1..])[1..] == b[j + 1..];
    SumAppend(b[..j], b[j + 1..], f);
  }

  /** Filtering then summing over one more element adds that element when it passes. */
  lemma FilterSumSnoc<T>(s: seq<T>, x: T, p: T -> bool, f: T -> real)
    ensures Sum(Filter(s + [x], p), f) == Sum(Filter(s, p), f) + (if p(x) then f(x) else 0.0)
  {
    FilterAppend(s, [x], p);
    assert Filter([x], p) == (if p(x) then [x] else []) + Filter([x][1..], p);
    SumAppend(Filter(s, p), Filter([x], p), f);
  }

  /** A non-empty sum of positive terms is positive. */
  lemma {:induction false} SumPositive<T>(s: seq<T>, f: T -> real)
    requires s != [] && forall i :: 0 <= i < |s| ==> f(s[i]) > 0.0
    ensures Sum(s, f) > 0.0
  {
    if |s| > 1 {
      assert s[1..][0] == s[1];
      SumPositive(s[1..], f);
    }
  }

  /** `f` where `p` holds and 0 elsewhere. */
  function Masked<T>(p: T -> bool, f: T -> real): T -> real {
    x => if p(x) then f(x) else 0.0
  }

  /** Adding up the elements a filter keeps is adding up all of them, masked. */
  lemma {:induction false} FilterSumMasked<T>(s: seq<T>, p: T -> bool, f: T -> real)
    ensures Sum(Filter(s, p), f) == Sum(s, Masked(p, f))
  {
    if s != [] {
      FilterSumMasked(s[1..], p, f);
      var head := if p(s[0]) then [s[0]] else [];
      SumAppend(head, Filter(s[1..], p), f);
    }
  }

  /** The sum over what a filter keeps does not depend on the order of the list. */
  lemma FilterSumPermutation<T>(a: seq<T>, b: seq<T>, p: T -> bool, f: T -> real)
    requires multiset(a) == multiset(b)
    ensures Sum(Filter(a, p), f) == Sum(Filter(b, p), f)
  {
    FilterSumMasked(a, p, f);
    FilterSumMasked(b, p, f);
    SumPermutation(a, b, Masked(p, f));
  }

  /** A filter that keeps every element, or none, sums to the whole sum, or to 0. */
  lemma {:induction false} FilterSumUniform<T>(s: seq<T>, p: T -> bool, f: T -> real, keep: bool)
    requires forall i :: 0 <= i < |s| ==> p(s[i]) == keep
    ensures Sum(Filter(s, p), f) == if keep then Sum(s, f) else 0.0
  {
    if s != [] {
      FilterSumUniform(s[1..], p, f, keep);
      var head := if p(s[0]) then [s[0]] else [];
      SumAppend(head, Filter(s[1..], p), f);
    }
  }

  /** Summing the concatenation of two filtered lists. */
  lemma FilterSumAppend<T>(a: seq<T>, b: seq<T>, p: T -> bool, f: T -> real)
    ensures Sum(Filter(a + b, p), f) == Sum(Filter(a, p), f) + Sum(Filter(b, p), f)
  {
    FilterAppend(a, b, p);
    SumAppend(Filter(a, p), Filter(b, p), f);
  }
}
