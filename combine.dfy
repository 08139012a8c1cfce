/**
 * The cross product gtest's `Combine` builds from two value generators, and counting over
 * sequences. `Combine(ValuesIn(xs), ValuesIn(ys))` enumerates pairs with the LAST generator
 * varying fastest: (x0, y0), (x0, y1), ..., (x1, y0), ...
 */
module Combinatorics {

  /** The pairs (x, y) for every y of ys, in order. */
  function Pairs<A, B>(x: A, ys: seq<B>): (r: seq<(A, B)>)
    ensures |r| == |ys|
    ensures forall j :: 0 <= j < |ys| ==> r[j] == (x, ys[j])
  {
    if ys == [] then [] else [(x, ys[0])] + Pairs(x, ys[1..])
  }

  /** The cross product of xs and ys, first component varying slowest. */
  function Combine<A, B>(xs: seq<A>, ys: seq<B>): (r: seq<(A, B)>)
    ensures forall k :: 0 <= k < |r| ==> r[k].0 in xs && r[k].1 in ys
  {
    if xs == [] then []
    else
      assert forall x :: x in xs[1..] ==> x in xs;
      Pairs(xs[0], ys) + Combine(xs[1..], ys)
  }

  /** The cross product has one element per pair of indices. */
  lemma {:induction false} CombineLength<A, B>(xs: seq<A>, ys: seq<B>)
    ensures |Combine(xs, ys)| == |xs| * |ys|
  {
    if xs != [] {
      CombineLength(xs[1..], ys);
      MulSucc(|xs| - 1, |ys|);
    }
  }

  lemma MulSucc(a: int, b: int)
    ensures (a + 1) * b == b + a * b
  {
  }

  /** Exactly the pairs with first component from xs and second from ys occur in the product. */
  lemma {:induction false} CombineMembers<A, B>(xs: seq<A>, ys: seq<B>, p: (A, B))
    ensures p in Combine(xs, ys) <==> p.0 in xs && p.1 in ys
  {
    if xs != [] {
      var head, rest := Pairs(xs[0], ys), Combine(xs[1..], ys);
      CombineMembers(xs[1..], ys, p);
      assert p in head <==> p.0 == xs[0] && p.1 in ys by {
        if p in head {
          var j :| 0 <= j < |ys| && head[j] == p;
        }
        if p.0 == xs[0] && p.1 in ys {
          var j :| 0 <= j < |ys| && ys[j] == p.1;
          assert head[j] == p;
        }
      }
      assert p.0 in xs <==> p.0 == xs[0] || p.0 in xs[1..] by {
        assert xs == [xs[0]] + xs[1..];
      }
    }
  }

  /** The position of (xs[i], ys[j]) in the cross product. */
  lemma {:induction false} CombineAt<A, B>(xs: seq<A>, ys: seq<B>, i: nat, j: nat)
    requires i < |xs| && j < |ys|
    ensures i * |ys| + j < |Combine(xs, ys)|
    ensures Combine(xs, ys)[i * |ys| + j] == (xs[i], ys[j])
  {
    var n, head, rest := |ys|, Pairs(xs[0], ys), Combine(xs[1..], ys);
    assert Combine(xs, ys) == head + rest;
    if i == 0 {
      assert i * n == 0;
      assert Combine(xs, ys)[j] == head[j];
    } else {
      CombineAt(xs[1..], ys, i - 1, j);
      var k := (i - 1) * n + j;
      assert k < |rest| && rest[k] == (xs[i], ys[j]);
      MulSucc(i - 1, n);
      assert i * n + j == n + k;
      assert (head + rest)[n + k] == rest[k];
    }
  }

  /** How many elements of xs satisfy p. */
  function CountIf<A(!new)>(xs: seq<A>, p: A -> bool): (c: nat)
    ensures c <= |xs|
    ensures c == 0 <==> forall x :: x in xs ==> !p(x)
  {
    if xs == [] then 0
    else
      assert forall x :: x in xs <==> x == xs[0] || x in xs[1..];
      (if p(xs[0]) then 1 else 0) + CountIf(xs[1..], p)
  }

  lemma {:induction false} CountIfAppend<A(!new)>(xs: seq<A>, ys: seq<A>, p: A -> bool)
    ensures CountIf(xs + ys, p) == CountIf(xs, p) + CountIf(ys, p)
  {
    if xs != [] {
      assert (xs + ys)[1..] == xs[1..] + ys;
      CountIfAppend(xs[1..], ys, p);
    } else {
      assert xs + ys == ys;
    }
  }

  /** Two predicates that agree everywhere count the same elements. */
  lemma {:induction false} CountIfCongruent<A(!new)>(xs: seq<A>, p: A -> bool, q: A -> bool)
    requires forall x :: x in xs ==> p(x) == q(x)
    ensures CountIf(xs, p) == CountIf(xs, q)
  {
    if xs != [] {
      assert forall x :: x in xs[1..] ==> x in xs;
      CountIfCongruent(xs[1..], p, q);
    }
  }

  /** The pair predicate "p holds of the first component and q of the second". */
  function Both<A, B>(p: A -> bool, q: B -> bool): ((A, B)) -> bool
  {
    (pr: (A, B)) => p(pr.0) && q(pr.1)
  }

  lemma {:induction false} CountIfPairs<A(!new), B(!new)>(x: A, ys: seq<B>, p: A -> bool, q: B -> bool)
    ensures CountIf(Pairs(x, ys), Both(p, q)) == if p(x) then CountIf(ys, q) else 0
  {
    if ys != [] {
      assert Pairs(x, ys)[1..] == Pairs(x, ys[1..]);
      CountIfPairs(x, ys[1..], p, q);
    }
  }

  /**
   * A product condition holds for exactly CountIf(xs, p) * CountIf(ys, q) pairs of the
   * cross product.
   */
  lemma {:induction false} CountIfCombine<A(!new), B(!new)>(xs: seq<A>, ys: seq<B>, p: A -> bool, q: B -> bool)
    ensures CountIf(Combine(xs, ys), Both(p, q)) == CountIf(xs, p) * CountIf(ys, q)
  {
    if xs != [] {
      CountIfAppend(Pairs(xs[0], ys), Combine(xs[1..], ys), Both(p, q));
      CountIfPairs(xs[0], ys, p, q);
      CountIfCombine(xs[1..], ys, p, q);
      MulSucc(CountIf(xs[1..], p), CountIf(ys, q));
    }
  }
}
