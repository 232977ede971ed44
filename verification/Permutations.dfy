/** Sums over a sequence do not depend on its order. */
module Permutations {

  function SumBy<A(!new)>(f: A -> int, s: seq<A>): int {
    if s == [] then 0 else SumBy(f, s[..|s| - 1]) + f(s[|s| - 1])
  }

  lemma {:induction false} SumByAppend<A(!new)>(f: A -> int, a: seq<A>, b: seq<A>)
    ensures SumBy(f, a + b) == SumBy(f, a) + SumBy(f, b)
  {
    if b == [] {
      assert a + b == a;
    } else {
      assert (a + b)[..|a + b| - 1] == a + b[..|b| - 1];
      SumByAppend(f, a, b[..|b| - 1]);
    }
  }

  lemma {:induction false} SumByPermutes<A(!new)>(f: A -> int, a: seq<A>, b: seq<A>)
    requires multiset(a) == multiset(b)
    ensures SumBy(f, a) == SumBy(f, b)
  {
    if a == [] {
      assert |multiset(b)| == 0;
    } else {
      var x := a[|a| - 1];
      var c := a[..|a| - 1];
      assert a == c + [x];
      assert x in multiset(b);
      var i :| 0 <= i < |b| && b[i] == x;
      var d := b[..i] + b[i + 1..];
      assert b == b[..i] + [x] + b[i + 1..];
      assert multiset(d) == multiset(b) - multiset{x};
      assert multiset(c) == multiset(a) - multiset{x};
      SumByPermutes(f, c, d);
      SumByAppend(f, b[..i], b[i + 1..]);
      SumByAppend(f, b[..i] + [x], b[i + 1..]);
      SumByAppend(f, b[..i], [x]);
      assert SumBy(f, [x]) == f(x) by {
        assert [x][..0] == [];
      }
    }
  }

  lemma MembersPermute<A(!new)>(a: seq<A>, b: seq<A>)
    requires multiset(a) == multiset(b)
    ensures forall x :: x in a <==> x in b
    ensures |a| == |b|
  {
    assert forall x :: x in a <==> x in multiset(a);
    assert forall x :: x in b <==> x in multiset(b);
    assert |multiset(a)| == |multiset(b)|;
  }
}
