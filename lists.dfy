/** Building a list by running through another and appending, for each element, what a function
    makes of it (Python's `for x in xs: out.extend(f(x))`). */
module Lists {
  /** The pieces `f` makes of the elements of `xs`, one after the other. */
  function FlatMap<T, U>(xs: seq<T>, f: T -> seq<U>): seq<U>
    decreases |xs|
  {
    if xs == [] then [] else FlatMap(xs[..|xs| - 1], f) + f(xs[|xs| - 1])
  }

  /** The pieces of two runs of elements are the pieces of the first followed by those of the
      second. */
  lemma {:induction false} FlatMapAppend<T, U>(a: seq<T>, b: seq<T>, f: T -> seq<U>)
    ensures FlatMap(a + b, f) == FlatMap(a, f) + FlatMap(b, f)
    decreases |b|
  {
    if b == [] {
      assert a + b == a;
    } else {
      var b' := b[..|b| - 1];
      var ab := a + b;
      assert ab[..|ab| - 1] == a + b' && ab[|ab| - 1] == b[|b| - 1];
      FlatMapAppend(a, b', f);
    }
  }

  /** Every piece is a piece of some element. */
  lemma {:induction false} FlatMapMember<T, U>(xs: seq<T>, f: T -> seq<U>, u: U)
    requires u in FlatMap(xs, f)
    ensures exists x :: x in xs && u in f(x)
    decreases |xs|
  {
    var last := xs[|xs| - 1];
    if u !in f(last) {
      FlatMapMember(xs[..|xs| - 1], f, u);
      var x :| x in xs[..|xs| - 1] && u in f(x);
      assert x in xs;
    }
  }

  /** Every piece of every element is a piece of the whole. */
  lemma {:induction false} FlatMapHas<T, U>(xs: seq<T>, f: T -> seq<U>, x: T, u: U)
    requires x in xs && u in f(x)
    ensures u in FlatMap(xs, f)
    decreases |xs|
  {
    if xs[|xs| - 1] != x {
      assert x in xs[..|xs| - 1];
      FlatMapHas(xs[..|xs| - 1], f, x, u);
    }
  }
}
