/** Sums over finite sets and sequences, and how the two agree. */
module Sums {
  import opened Common

  ghost function SetSum<T>(s: set<T>, f: T -> int): int {
    if s == {} then 0
    else
      var x :| x in s;
      f(x) + SetSum(s - {x}, f)
  }

  /** The sum may be taken in any order. */
  lemma {:induction false} SetSumRemove<T>(s: set<T>, f: T -> int, x: T)
    requires x in s
    ensures SetSum(s, f) == f(x) + SetSum(s - {x}, f)
    decreases |s|
  {
    var y :| y in s && SetSum(s, f) == f(y) + SetSum(s - {y}, f);
    if y != x {
      SetSumRemove(s - {y}, f, x);
      SetSumRemove(s - {x}, f, y);
      assert s - {y} - {x} == s - {x} - {y};
    }
  }

  lemma {:induction false} SetSumUnion<T>(a: set<T>, b: set<T>, f: T -> int)
    requires a !! b
    ensures SetSum(a + b, f) == SetSum(a, f) + SetSum(b, f)
    decreases |b|
  {
    if b == {} {
      assert a + b == a;
    } else {
      var x :| x in b;
      SetSumRemove(a + b, f, x);
      SetSumRemove(b, f, x);
      assert a + b - {x} == a + (b - {x});
      SetSumUnion(a, b - {x}, f);
    }
  }

  lemma {:induction false} SetSumCongruent<T>(s: set<T>, f: T -> int, g: T -> int)
    requires forall x :: x in s ==> f(x) == g(x)
    ensures SetSum(s, f) == SetSum(s, g)
    decreases |s|
  {
    if s != {} {
      var x :| x in s;
      SetSumRemove(s, f, x);
      SetSumRemove(s, g, x);
      SetSumCongruent(s - {x}, f, g);
    }
  }

  ghost function SeqSum<T>(s: seq<T>, f: T -> int): int {
    if s == [] then 0 else SeqSum(s[..|s| - 1], f) + f(s[|s| - 1])
  }

  lemma {:induction false} SeqSumConcat<T>(a: seq<T>, b: seq<T>, f: T -> int)
    ensures SeqSum(a + b, f) == SeqSum(a, f) + SeqSum(b, f)
    decreases |b|
  {
    if b == [] {
      assert a + b == a;
    } else {
      assert (a + b)[..|a + b| - 1] == a + b[..|b| - 1];
      SeqSumConcat(a, b[..|b| - 1], f);
    }
  }

  /** A sequence without repeats sums to the sum of its elements. */
  lemma {:induction false} DistinctSeqSum<T>(s: seq<T>, f: T -> int)
    requires Distinct(s)
    ensures SetSum(Elements(s), f) == SeqSum(s, f)
    decreases |s|
  {
    if s != [] {
      var last := s[|s| - 1];
      var front := s[..|s| - 1];
      assert s == front + [last];
      assert Elements(s) - {last} == Elements(front);
      SetSumRemove(Elements(s), f, last);
      DistinctSeqSum(front, f);
    }
  }

  lemma {:induction false} SetSumPlus<T>(s: set<T>, f: T -> int, g: T -> int, sum: T -> int)
    requires forall x :: x in s ==> sum(x) == f(x) + g(x)
    ensures SetSum(s, sum) == SetSum(s, f) + SetSum(s, g)
    decreases |s|
  {
    if s != {} {
      var x :| x in s;
      SetSumRemove(s, f, x);
      SetSumRemove(s, g, x);
      SetSumRemove(s, sum, x);
      SetSumPlus(s - {x}, f, g, sum);
    }
  }

  lemma {:induction false} SetSumZero<T>(s: set<T>, f: T -> int)
    requires forall x :: x in s ==> f(x) == 0
    ensures SetSum(s, f) == 0
    decreases |s|
  {
    if s != {} {
      var x :| x in s;
      SetSumRemove(s, f, x);
      SetSumZero(s - {x}, f);
    }
  }
}
