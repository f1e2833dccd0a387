/** First occurrences: what a JavaScript Set or Map keeps of a stream of keys, in insertion order. */
module Distinct {

  predicate NoDuplicates<T(==)>(xs: seq<T>) {
    forall i, j :: 0 <= i < j < |xs| ==> xs[i] != xs[j]
  }

  function Elements<T>(xs: seq<T>): set<T> {
    set x | x in xs
  }

  /** The insertion `s.add(x)`. */
  function Add<T(==)>(xs: seq<T>, x: T): (r: seq<T>)
    ensures NoDuplicates(xs) ==> NoDuplicates(r)
    ensures Elements(r) == Elements(xs) + {x} && xs <= r
  {
    if x in xs then xs else xs + [x]
  }

  function Firsts<T(==)>(xs: seq<T>): (r: seq<T>)
    ensures NoDuplicates(r) && Elements(r) == Elements(xs)
  {
    if xs == [] then [] else
    assert xs == xs[..|xs| - 1] + [xs[|xs| - 1]];
    Add(Firsts(xs[..|xs| - 1]), xs[|xs| - 1])
  }

  lemma FirstsAdd<T>(xs: seq<T>, x: T)
    ensures Firsts(xs + [x]) == Add(Firsts(xs), x)
  {
    assert (xs + [x])[..|xs|] == xs;
  }

  /** The position of the first occurrence of `x`. */
  function FirstAt<T(==)>(xs: seq<T>, x: T): (k: nat)
    requires x in xs
    ensures k < |xs| && xs[k] == x && x !in xs[..k]
  {
    if xs[0] == x then 0 else
    assert xs == [xs[0]] + xs[1..];
    assert x in xs[1..];
    1 + FirstAt(xs[1..], x)
  }

  lemma FirstAtStays<T>(xs: seq<T>, x: T, y: T)
    requires x in xs
    ensures FirstAt(xs + [y], x) == FirstAt(xs, x)
  {
    if xs[0] != x {
      assert (xs + [y])[1..] == xs[1..] + [y];
      FirstAtStays(xs[1..], x, y);
    }
  }

  lemma FirstAtLast<T>(xs: seq<T>, x: T)
    requires x !in xs
    ensures FirstAt(xs + [x], x) == |xs|
  {
    if xs != [] {
      assert (xs + [x])[1..] == xs[1..] + [x];
      FirstAtLast(xs[1..], x);
    }
  }

  /** The order is that of first occurrence. */
  lemma {:induction false} FirstsInOrder<T>(xs: seq<T>, i: nat, j: nat)
    requires i < j < |Firsts(xs)|
    ensures var d := Firsts(xs);
            d[i] in xs && d[j] in xs && FirstAt(xs, d[i]) < FirstAt(xs, d[j])
  {
    var before, x, d := xs[..|xs| - 1], xs[|xs| - 1], Firsts(xs);
    assert xs == before + [x];
    FirstsAdd(before, x);
    assert d[i] in Elements(d) && d[j] in Elements(d);
    if j < |Firsts(before)| {
      FirstsInOrder(before, i, j);
      FirstAtStays(before, d[i], x);
      FirstAtStays(before, d[j], x);
    } else {
      assert Firsts(before)[i] in Elements(Firsts(before));
      FirstAtStays(before, d[i], x);
      assert x !in Elements(Firsts(before));
      FirstAtLast(before, x);
    }
  }

  lemma Member<T>(s: set<T>) returns (x: T)
    requires s != {}
    ensures x in s
  {
    x :| x in s;
  }

  lemma SizeIsLength<T>(xs: seq<T>)
    requires NoDuplicates(xs)
    ensures |Elements(xs)| == |xs|
  {
    if xs != [] {
      var before, x := xs[..|xs| - 1], xs[|xs| - 1];
      SizeIsLength(before);
      assert Elements(xs) == Elements(before) + {x};
    }
  }

  /** Two duplicate-free sequences with the same elements are as long. */
  lemma SameElements<T>(xs: seq<T>, ys: seq<T>)
    requires NoDuplicates(xs) && NoDuplicates(ys) && Elements(xs) <= Elements(ys)
    ensures |xs| <= |ys|
    ensures |xs| == |ys| ==> Elements(xs) == Elements(ys)
  {
    SizeIsLength(xs);
    SizeIsLength(ys);
    SubsetSize(Elements(xs), Elements(ys));
  }

  lemma SubsetSize<T>(a: set<T>, b: set<T>)
    requires a <= b
    ensures |a| <= |b| && (|a| == |b| ==> a == b)
  {
    if x :| x in b && x !in a {
      SubsetSize(a, b - {x});
    } else {
      assert a == b;
    }
  }

  lemma {:induction false} CountsOnce<T>(xs: seq<T>, x: T)
    requires NoDuplicates(xs)
    ensures multiset(xs)[x] == if x in xs then 1 else 0
  {
    if xs != [] {
      var before, last := xs[..|xs| - 1], xs[|xs| - 1];
      assert xs == before + [last];
      CountsOnce(before, x);
    }
  }

  /** Two duplicate-free sequences with the same elements are permutations of each other. */
  lemma Permutation<T>(xs: seq<T>, ys: seq<T>)
    requires NoDuplicates(xs) && NoDuplicates(ys) && Elements(xs) == Elements(ys)
    ensures multiset(xs) == multiset(ys)
  {
    forall x: T
      ensures multiset(xs)[x] == multiset(ys)[x]
    {
      CountsOnce(xs, x);
      CountsOnce(ys, x);
      assert x in xs <==> x in Elements(xs);
      assert x in ys <==> x in Elements(ys);
    }
  }
}
