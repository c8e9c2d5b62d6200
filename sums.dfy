/**
 * Sums of resource triples over a sequence, and the facts that make them independent of how
 * the sequence is split or ordered.
 */
module Sums {
  import opened Quantity

  /** The sum of `f` over `s`, taken in order. */
  function SumOf<T>(s: seq<T>, f: T -> Resource): Resource {
    if |s| == 0 then Zero else Plus(SumOf(s[..|s| - 1], f), f(s[|s| - 1]))
  }

  /** An empty sum is zero. */
  lemma SumOfEmpty<T>(s: seq<T>, f: T -> Resource)
    requires |s| == 0
    ensures SumOf(s, f) == Zero
  {
  }

  /** A non-empty sum is the sum of all but the last term, plus the last term. */
  lemma SumOfLast<T>(s: seq<T>, f: T -> Resource)
    requires |s| > 0
    ensures SumOf(s, f) == Plus(SumOf(s[..|s| - 1], f), f(s[|s| - 1]))
  {
  }

  /** A sum of one term is that term. */
  lemma SumOfOne<T>(x: T, f: T -> Resource)
    ensures SumOf([x], f) == f(x)
  {
    assert [x][..0] == [];
  }

  /** A sum of two terms. */
  lemma SumOfTwo<T>(x: T, y: T, f: T -> Resource)
    ensures SumOf([x, y], f) == Plus(f(x), f(y))
  {
    assert [x, y][..1] == [x];
    SumOfOne(x, f);
  }

  /** The sum over a prefix grows by one term at a time. */
  lemma SumOfPrefix<T>(s: seq<T>, j: nat, f: T -> Resource)
    requires j < |s|
    ensures SumOf(s[..j + 1], f) == Plus(SumOf(s[..j], f), f(s[j]))
  {
    assert s[..j + 1][..j] == s[..j];
  }

  /** A sum over two sequences laid end to end is the sum of the two sums. */
  lemma {:induction false} SumOfAppend<T>(a: seq<T>, b: seq<T>, f: T -> Resource)
    ensures SumOf(a + b, f) == Plus(SumOf(a, f), SumOf(b, f))
  {
    if b == [] {
      assert a + b == a;
    } else {
      assert (a + b)[..|a + b| - 1] == a + b[..|b| - 1];
      SumOfAppend(a, b[..|b| - 1], f);
    }
  }

  /** Taking the i-th term out of a sum. */
  lemma {:induction false} SumOfRemove<T>(b: seq<T>, i: nat, f: T -> Resource)
    requires i < |b|
    ensures SumOf(b, f) == Plus(SumOf(b[..i] + b[i + 1..], f), f(b[i]))
  {
    var left, x, right := b[..i], b[i], b[i + 1..];
    assert b == (left + [x]) + right;
    assert SumOf(left + [x], f) == Plus(SumOf(left, f), f(x)) by {
      assert (left + [x])[..|left + [x]| - 1] == left;
    }
    SumOfAppend(left + [x], right, f);
    SumOfAppend(left, right, f);
  }

  /** Replacing one term by another of the same value leaves a sum as it was. */
  lemma {:induction false} SumOfUpdate<T>(s: seq<T>, i: nat, v: T, f: T -> Resource)
    requires i < |s| && f(v) == f(s[i])
    ensures SumOf(s[i := v], f) == SumOf(s, f)
  {
    var t := s[i := v];
    assert t[..i] + t[i + 1..] == s[..i] + s[i + 1..];
    SumOfRemove(s, i, f);
    SumOfRemove(t, i, f);
  }

  /** A sum does not depend on the order of its terms. */
  lemma {:induction false} SumOfPermutation<T>(a: seq<T>, b: seq<T>, f: T -> Resource)
    requires multiset(a) == multiset(b)
    ensures SumOf(a, f) == SumOf(b, f)
  {
    if a == [] {
      assert |multiset(b)| == 0;
    } else {
      var x := a[|a| - 1];
      var init := a[..|a| - 1];
      assert a == init + [x];
      assert x in multiset(b);
      var i :| 0 <= i < |b| && b[i] == x;
      var rest := b[..i] + b[i + 1..];
      assert b == b[..i] + [x] + b[i + 1..];
      assert multiset(init) == multiset(a) - multiset{x};
      assert multiset(rest) == multiset(b) - multiset{x};
      SumOfPermutation(init, rest, f);
      SumOfRemove(b, i, f);
    }
  }

}
