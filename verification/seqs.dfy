/** Element-wise mapping of sequences, the model of a Python list comprehension
    `[f(x) for x in xs]`. */
module Seqs {

  /** Applies `f` to every element of `s`, keeping length and order. */
  function Map<A, B>(f: A -> B, s: seq<A>): (r: seq<B>)
    ensures |r| == |s|
    ensures forall i :: 0 <= i < |s| ==> r[i] == f(s[i])
  {
    if s == [] then [] else [f(s[0])] + Map(f, s[1..])
  }

  /** Mapping distributes over concatenation: the image of a list is the
      image of its front followed by the image of its back. */
  lemma {:induction false} MapAppend<A, B>(f: A -> B, a: seq<A>, b: seq<A>)
    ensures Map(f, a + b) == Map(f, a) + Map(f, b)
  {
    var l, r := Map(f, a + b), Map(f, a) + Map(f, b);
    assert |l| == |r|;
    forall i | 0 <= i < |l|
      ensures l[i] == r[i]
    {
      if i < |a| {
        assert (a + b)[i] == a[i];
      } else {
        assert (a + b)[i] == b[i - |a|];
      }
    }
  }

  /** Mapping a function that returns its argument unchanged is the identity. */
  lemma {:induction false} MapIdentity<A>(f: A -> A, s: seq<A>)
    requires forall x :: f(x) == x
    ensures Map(f, s) == s
  {
    var r := Map(f, s);
    assert |r| == |s|;
    forall i | 0 <= i < |s|
      ensures r[i] == s[i]
    {
      assert r[i] == f(s[i]);
    }
  }
}
