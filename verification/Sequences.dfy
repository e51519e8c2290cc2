/** Laws of sequences the other modules lean on. */
module Sequences {

  lemma Assoc<T>(a: seq<T>, b: seq<T>, c: seq<T>)
    ensures (a + b) + c == a + (b + c)
  {
  }

  /** Each element replaced by a sequence, in order. */
  function Expand<X, Y>(f: X -> seq<Y>, xs: seq<X>): seq<Y> {
    if xs == [] then [] else Expand(f, xs[..|xs| - 1]) + f(xs[|xs| - 1])
  }

  lemma ExpandSnoc<X, Y>(f: X -> seq<Y>, xs: seq<X>, x: X)
    ensures Expand(f, xs + [x]) == Expand(f, xs) + f(x)
  {
    assert (xs + [x])[..|xs|] == xs;
  }

  lemma ExpandOne<X, Y>(f: X -> seq<Y>, x: X)
    ensures Expand(f, [x]) == f(x)
  {
    ExpandSnoc(f, [], x);
    assert [] + [x] == [x];
  }

  lemma {:induction false} ExpandConcat<X, Y>(f: X -> seq<Y>, a: seq<X>, b: seq<X>)
    ensures Expand(f, a + b) == Expand(f, a) + Expand(f, b)
  {
    if b == [] {
      assert a + b == a;
    } else {
      var c, x := b[..|b| - 1], b[|b| - 1];
      ExpandConcat(f, a, c);
      assert b == c + [x];
      assert a + b == (a + c) + [x];
      ExpandSnoc(f, a + c, x);
      Assoc(Expand(f, a), Expand(f, c), f(x));
    }
  }
}
