/** Options, flattening and sums over sequences, shared by the other modules. */
module Collections {

  datatype Option<+T> = None | Some(value: T)

  function Flatten<T>(xss: seq<seq<T>>): seq<T> {
    if xss == [] then [] else Flatten(xss[..|xss| - 1]) + xss[|xss| - 1]
  }

  lemma FlattenSnoc<T>(xss: seq<seq<T>>, xs: seq<T>)
    ensures Flatten(xss + [xs]) == Flatten(xss) + xs
  {
    assert (xss + [xs])[..|xss|] == xss;
  }

  /** The sum of `f` over the elements of `xs`. */
  function SumBy<A>(xs: seq<A>, f: A -> nat): nat {
    if xs == [] then 0 else f(xs[0]) + SumBy(xs[1..], f)
  }

  lemma {:induction false} SumByUpdate<A>(xs: seq<A>, k: nat, x: A, f: A -> nat)
    requires k < |xs|
    ensures SumBy(xs[k := x], f) + f(xs[k]) == SumBy(xs, f) + f(x)
  {
    if k == 0 {
      assert xs[k := x][1..] == xs[1..];
    } else {
      assert xs[k := x][1..] == xs[1..][k - 1 := x];
      SumByUpdate(xs[1..], k - 1, x, f);
    }
  }

  lemma {:induction false} SumBySnoc<A>(xs: seq<A>, x: A, f: A -> nat)
    ensures SumBy(xs + [x], f) == SumBy(xs, f) + f(x)
  {
    if xs == [] {
      assert xs + [x] == [x] && [x][1..] == [];
    } else {
      assert (xs + [x])[1..] == xs[1..] + [x];
      SumBySnoc(xs[1..], x, f);
    }
  }

  lemma {:induction false} SumByBound<A>(xs: seq<A>, f: A -> nat, bound: nat)
    requires forall x :: x in xs ==> f(x) <= bound
    ensures SumBy(xs, f) <= |xs| * bound
  {
    if xs != [] {
      SumByBound(xs[1..], f, bound);
      assert |xs| * bound == (|xs| - 1) * bound + bound;
    }
  }

  lemma {:induction false} SumBySplit<A>(xs: seq<A>, whole: A -> nat, part: A -> nat, rest: A -> nat)
    requires forall x :: x in xs ==> whole(x) == part(x) + rest(x)
    ensures SumBy(xs, whole) == SumBy(xs, part) + SumBy(xs, rest)
  {
    if xs != [] {
      SumBySplit(xs[1..], whole, part, rest);
    }
  }

  /** The multiset union of `f` over the elements of `xs`. */
  ghost function UnionBy<A, B>(xs: seq<A>, f: A -> multiset<B>): multiset<B> {
    if xs == [] then multiset{} else UnionBy(xs[..|xs| - 1], f) + f(xs[|xs| - 1])
  }

  lemma {:induction false} UnionBySize<A, B>(xs: seq<A>, f: A -> multiset<B>, size: A -> nat)
    requires forall x :: x in xs ==> |f(x)| == size(x)
    ensures |UnionBy(xs, f)| == SumBy(xs, size)
  {
    if xs != [] {
      var n := |xs| - 1;
      assert xs == xs[..n] + [xs[n]];
      UnionBySize(xs[..n], f, size);
      SumBySnoc(xs[..n], xs[n], size);
    }
  }

  lemma {:induction false} UnionBySubset<A, B>(xs: seq<A>, f: A -> multiset<B>, g: A -> multiset<B>)
    requires forall x :: x in xs ==> f(x) <= g(x)
    ensures UnionBy(xs, f) <= UnionBy(xs, g)
  {
    if xs != [] {
      UnionBySubset(xs[..|xs| - 1], f, g);
    }
  }

  lemma {:induction false} UnionByEqual<A, B>(xs: seq<A>, f: A -> multiset<B>, g: A -> multiset<B>)
    requires forall x :: x in xs ==> f(x) == g(x)
    ensures UnionBy(xs, f) == UnionBy(xs, g)
  {
    if xs != [] {
      UnionByEqual(xs[..|xs| - 1], f, g);
    }
  }

  lemma {:induction false} InSomeShare<A, B>(xs: seq<A>, f: A -> multiset<B>, b: B) returns (k: nat)
    requires b in UnionBy(xs, f)
    ensures k < |xs| && b in f(xs[k])
  {
    var n := |xs| - 1;
    if b in f(xs[n]) {
      k := n;
    } else {
      k := InSomeShare(xs[..n], f, b);
    }
  }

  lemma {:induction false} ShareIsBelow<A, B>(xs: seq<A>, f: A -> multiset<B>, b: B, k: nat)
    requires k < |xs|
    ensures f(xs[k])[b] <= UnionBy(xs, f)[b]
  {
    if k < |xs| - 1 {
      ShareIsBelow(xs[..|xs| - 1], f, b, k);
    }
  }

  lemma {:induction false} SharesAddUp<A, B>(xs: seq<A>, f: A -> multiset<B>, b: B, j: nat, k: nat)
    requires j < k < |xs|
    ensures f(xs[j])[b] + f(xs[k])[b] <= UnionBy(xs, f)[b]
  {
    if k < |xs| - 1 {
      SharesAddUp(xs[..|xs| - 1], f, b, j, k);
    } else {
      ShareIsBelow(xs[..|xs| - 1], f, b, j);
    }
  }

  /** A multiset bounded by a duplicate-free sequence holds nothing twice. */
  lemma {:induction false} DistinctMultiset<T>(xs: seq<T>, x: T)
    requires forall i, j :: 0 <= i < j < |xs| ==> xs[i] != xs[j]
    ensures multiset(xs)[x] <= 1
  {
    if xs != [] {
      var n := |xs| - 1;
      assert xs == xs[..n] + [xs[n]];
      DistinctMultiset(xs[..n], x);
      if x == xs[n] {
        assert x !in xs[..n];
        assert x !in multiset(xs[..n]);
      }
    }
  }
}
