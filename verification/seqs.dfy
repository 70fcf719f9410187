/** Sequence helpers that stand for JavaScript's `Array.prototype.filter` and `reduce`. */
module Seqs {

  /** `a` is `b` with some elements left out, the rest kept in order (greedy matching). */
  predicate IsSubsequence<T(==)>(a: seq<T>, b: seq<T>)
    decreases |b|
  {
    a == [] || (b != [] && if a[0] == b[0] then IsSubsequence(a[1..], b[1..]) else IsSubsequence(a, b[1..]))
  }

  lemma {:induction false} SubsequenceOfItself<T>(s: seq<T>)
    ensures IsSubsequence(s, s)
  {
    if s != [] {
      SubsequenceOfItself(s[1..]);
    }
  }

  /** `s.filter(p)`: keeps, in order, exactly the elements that satisfy `p`, each as often as in `s`. */
  function Filter<T(==,!new)>(s: seq<T>, p: T -> bool): (r: seq<T>)
    ensures forall x :: multiset(r)[x] == if p(x) then multiset(s)[x] else 0
    ensures forall x :: x in r <==> x in s && p(x)
    ensures IsSubsequence(r, s)
  {
    if s == [] then []
    else
      var rest := Filter(s[1..], p);
      assert s == [s[0]] + s[1..];
      if p(s[0]) then [s[0]] + rest
      else
        assert rest != [] ==> rest[0] in rest;
        rest
  }

  /** Filtering with a condition that every element meets changes nothing. */
  lemma {:induction false} FilterAll<T(!new)>(s: seq<T>, p: T -> bool)
    requires forall i :: 0 <= i < |s| ==> p(s[i])
    ensures Filter(s, p) == s
  {
    if s != [] {
      FilterAll(s[1..], p);
    }
  }

  /** `s.reduce((sum, x) => sum + f(x), 0)` */
  function SumOf<T>(s: seq<T>, f: T -> int): int {
    if s == [] then 0 else f(s[0]) + SumOf(s[1..], f)
  }

  lemma {:induction false} SumOfConcat<T>(a: seq<T>, b: seq<T>, f: T -> int)
    ensures SumOf(a + b, f) == SumOf(a, f) + SumOf(b, f)
  {
    if a != [] {
      assert (a + b)[0] == a[0];
      assert (a + b)[1..] == a[1..] + b;
      SumOfConcat(a[1..], b, f);
    } else {
      assert a + b == b;
    }
  }

  lemma SumOfAppend<T>(s: seq<T>, x: T, f: T -> int)
    ensures SumOf(s + [x], f) == SumOf(s, f) + f(x)
  {
    SumOfConcat(s, [x], f);
  }

  /** The sum does not depend on the order of the elements. */
  lemma {:induction false} SumOfPermutation<T>(a: seq<T>, b: seq<T>, f: T -> int)
    requires multiset(a) == multiset(b)
    ensures SumOf(a, f) == SumOf(b, f)
  {
    if a == [] {
      assert |b| == |multiset(b)| == 0;
    } else {
      var x := a[0];
      assert x in multiset(b);
      var i :| 0 <= i < |b| && b[i] == x;
      assert b == b[..i] + [x] + b[i + 1..];
      assert a == [x] + a[1..];
      var rest := b[..i] + b[i + 1..];
      assert multiset(a[1..]) == multiset(rest) by {
        calc {
          multiset(b);
          multiset(b[..i] + [x] + b[i + 1..]);
          multiset(b[..i]) + multiset{x} + multiset(b[i + 1..]);
        }
        assert multiset(rest) == multiset(b[..i]) + multiset(b[i + 1..]);
        assert multiset(rest) == multiset(b) - multiset{x};
        calc {
          multiset(a);
          multiset([x] + a[1..]);
          multiset{x} + multiset(a[1..]);
        }
        assert multiset(a[1..]) == multiset(a) - multiset{x};
      }
      SumOfPermutation(a[1..], rest, f);
      SumOfConcat(b[..i] + [x], b[i + 1..], f);
      SumOfConcat(b[..i], [x], f);
      SumOfConcat(b[..i], b[i + 1..], f);
    }
  }

  lemma {:induction false} SumOfNonNegative<T>(s: seq<T>, f: T -> int)
    requires forall i :: 0 <= i < |s| ==> f(s[i]) >= 0
    ensures SumOf(s, f) >= 0
  {
    if s != [] {
      SumOfNonNegative(s[1..], f);
    }
  }

  /** The sum of an integer sequence. */
  function Sum(s: seq<int>): int {
    if s == [] then 0 else s[0] + Sum(s[1..])
  }

  /** Adding `a` to one element of an integer sequence adds `a` to its sum. */
  lemma {:induction false} SumUpdate(s: seq<int>, i: int, a: int)
    requires 0 <= i < |s|
    ensures Sum(s[i := s[i] + a]) == Sum(s) + a
  {
    if i > 0 {
      SumUpdate(s[1..], i - 1, a);
      assert s[i := s[i] + a][1..] == s[1..][i - 1 := s[i] + a];
    }
  }

  lemma {:induction false} SumAppend(s: seq<int>, x: int)
    ensures Sum(s + [x]) == Sum(s) + x
  {
    if s != [] {
      SumAppend(s[1..], x);
      assert (s + [x])[1..] == s[1..] + [x];
    }
  }
}
