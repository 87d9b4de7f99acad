/** Taking sequences apart at their end. */
module Sequences {

  function Front<T>(xs: seq<T>): seq<T>
    requires xs != []
  {
    xs[..|xs| - 1]
  }

  function Last<T>(xs: seq<T>): T
    requires xs != []
  {
    xs[|xs| - 1]
  }

  lemma FrontOfAppend<T>(xs: seq<T>, x: T)
    ensures Front(xs + [x]) == xs && Last(xs + [x]) == x
  {
  }

  lemma FrontOfConcat<T>(xs: seq<T>, ys: seq<T>)
    requires ys != []
    ensures Front(xs + ys) == xs + Front(ys) && Last(xs + ys) == Last(ys)
  {
  }

  lemma ConcatAssociative<T>(a: seq<T>, b: seq<T>, c: seq<T>)
    ensures (a + b) + c == a + (b + c)
  {
  }
}
