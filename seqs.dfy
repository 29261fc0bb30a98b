/** Row-wise operations on sequences: the shapes that pandas' vectorised
    column assignments, boolean-mask filters and left merges take when they
    are read one row at a time. */
module Seqs {

  /** Apply `f` to every element, keeping the order. */
  function Map<T, U>(xs: seq<T>, f: T -> U): (r: seq<U>)
    ensures |r| == |xs|
    ensures forall i :: 0 <= i < |xs| ==> r[i] == f(xs[i])
  {
    seq(|xs|, i requires 0 <= i < |xs| => f(xs[i]))
  }

  /** Keep the elements that satisfy `p`, in order. */
  function Filter<T(==)>(xs: seq<T>, p: T -> bool): (r: seq<T>)
    ensures |r| <= |xs|
    ensures forall i :: 0 <= i < |r| ==> r[i] in xs && p(r[i])
    ensures forall i :: 0 <= i < |xs| && p(xs[i]) ==> xs[i] in r
  {
    if xs == [] then [] else (if p(xs[0]) then [xs[0]] else []) + Filter(xs[1..], p)
  }

  /** Replace every element by the sequence `g` gives for it, in order. */
  function FlatMap<T, U>(xs: seq<T>, g: T -> seq<U>): seq<U>
  {
    if xs == [] then [] else g(xs[0]) + FlatMap(xs[1..], g)
  }

  lemma {:induction false} MapAppend<T, U>(xs: seq<T>, ys: seq<T>, f: T -> U)
    ensures Map(xs + ys, f) == Map(xs, f) + Map(ys, f)
  {
  }

  /** Mapping a sequence, then dropping the last element, is mapping the
      sequence without it. */
  lemma MapInit<T, U>(xs: seq<T>, f: T -> U)
    requires xs != []
    ensures Map(xs, f)[..|xs| - 1] == Map(xs[..|xs| - 1], f)
  {
  }

  lemma {:induction false} FlatMapAppend<T, U>(xs: seq<T>, ys: seq<T>, g: T -> seq<U>)
    ensures FlatMap(xs + ys, g) == FlatMap(xs, g) + FlatMap(ys, g)
  {
    if xs != [] {
      assert (xs + ys)[1..] == xs[1..] + ys;
      FlatMapAppend(xs[1..], ys, g);
    } else {
      assert xs + ys == ys;
    }
  }

  lemma FlatMapSingleton<T, U>(x: T, g: T -> seq<U>)
    ensures FlatMap([x], g) == g(x)
  {
    assert [x][1..] == [];
  }

  lemma {:induction false} FilterAppend<T>(xs: seq<T>, ys: seq<T>, p: T -> bool)
    ensures Filter(xs + ys, p) == Filter(xs, p) + Filter(ys, p)
  {
    if xs != [] {
      assert (xs + ys)[1..] == xs[1..] + ys;
      FilterAppend(xs[1..], ys, p);
    } else {
      assert xs + ys == ys;
    }
  }

  /** Two filters and a map, on a non-empty sequence: the image of the
      first element when it passes both filters, then the rest. */
  lemma MapFilterFilterCons<T, U>(xs: seq<T>, p: T -> bool, q: T -> bool, f: T -> U)
    requires xs != []
    ensures Map(Filter(Filter(xs, p), q), f) ==
      (if p(xs[0]) && q(xs[0]) then [f(xs[0])] else []) + Map(Filter(Filter(xs[1..], p), q), f)
  {
    var rest := Filter(xs[1..], p);
    if p(xs[0]) {
      assert Filter(xs, p) == [xs[0]] + rest;
      FilterAppend([xs[0]], rest, q);
      assert [xs[0]][1..] == [];
      MapAppend(Filter([xs[0]], q), Filter(rest, q), f);
    } else {
      assert Filter(xs, p) == rest;
    }
  }

  /** An element of the flattened sequence comes from some element of `xs`. */
  lemma {:induction false} FlatMapSource<T, U>(xs: seq<T>, g: T -> seq<U>, y: U)
    requires y in FlatMap(xs, g)
    ensures exists x :: x in xs && y in g(x)
  {
    if y !in g(xs[0]) {
      FlatMapSource(xs[1..], g, y);
    }
  }

  /** An element of `Map(Filter(Map(xs, f), p), g)` is `g(f(x))` for some
      `x` of `xs` with `p(f(x))`. */
  lemma MapFilterMapSource<T, U, V>(xs: seq<T>, f: T -> U, p: U -> bool, g: U -> V, y: V)
    requires y in Map(Filter(Map(xs, f), p), g)
    ensures exists x :: x in xs && p(f(x)) && y == g(f(x))
  {
    var ys := Filter(Map(xs, f), p);
    var i :| 0 <= i < |ys| && y == g(ys[i]);
    var k :| 0 <= k < |xs| && ys[i] == f(xs[k]);
    assert xs[k] in xs;
  }
}
