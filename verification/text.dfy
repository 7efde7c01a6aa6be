/** String operations the handlers rely on. */
module Text {

  /** `s.replace(c, '')`: `s` with every occurrence of `c` deleted, the other
      characters kept in their original order. */
  function RemoveChar(s: string, c: char): (r: string)
    ensures c !in r
    ensures |r| <= |s|
    ensures forall x :: x in r ==> x in s
  {
    if s == [] then []
    else if s[0] == c then RemoveChar(s[1..], c)
    else [s[0]] + RemoveChar(s[1..], c)
  }

  /** Only `c` is deleted: every other character occurs as often in the result
      as in `s`, and the length drops by exactly the number of `c`s. */
  lemma {:induction false} RemoveCharCounts(s: string, c: char)
    ensures forall x :: x != c ==> multiset(RemoveChar(s, c))[x] == multiset(s)[x]
    ensures |RemoveChar(s, c)| == |s| - multiset(s)[c]
  {
    if s != [] {
      RemoveCharCounts(s[1..], c);
      assert s == [s[0]] + s[1..];
      assert multiset(s) == multiset([s[0]]) + multiset(s[1..]);
      if s[0] != c {
        assert multiset(RemoveChar(s, c)) == multiset([s[0]]) + multiset(RemoveChar(s[1..], c));
      }
    }
  }

  /** `n` copies of the character `c`. */
  function Repeat(c: char, n: nat): (r: string)
    ensures |r| == n
    ensures forall i :: 0 <= i < n ==> r[i] == c
  {
    if n == 0 then [] else [c] + Repeat(c, n - 1)
  }

  /** Deleting distributes over concatenation, so the surviving characters
      keep their relative order. */
  lemma {:induction false} RemoveCharAppend(a: string, b: string, c: char)
    ensures RemoveChar(a + b, c) == RemoveChar(a, c) + RemoveChar(b, c)
  {
    if a == [] {
      assert a + b == b;
    } else {
      assert (a + b)[0] == a[0];
      assert (a + b)[1..] == a[1..] + b;
      RemoveCharAppend(a[1..], b, c);
    }
  }

  /** A string is left unchanged exactly when it does not contain `c`. */
  lemma {:induction false} RemoveCharFixed(s: string, c: char)
    ensures RemoveChar(s, c) == s <==> c !in s
  {
    if s != [] {
      RemoveCharFixed(s[1..], c);
      if c !in s {
        assert c !in s[1..];
      }
    }
  }

  /** Deleting twice is deleting once. */
  lemma RemoveCharIdempotent(s: string, c: char)
    ensures RemoveChar(RemoveChar(s, c), c) == RemoveChar(s, c)
  {
    RemoveCharFixed(RemoveChar(s, c), c);
  }

  /** Every occurrence is deleted, wherever it stands: inserting one more `c`
      at any position does not change the result. */
  lemma RemoveCharAnywhere(a: string, b: string, c: char)
    ensures RemoveChar(a + [c] + b, c) == RemoveChar(a + b, c)
  {
    RemoveCharAppend(a + [c], b, c);
    RemoveCharAppend(a, [c], c);
    RemoveCharAppend(a, b, c);
  }

  /** A run of `c` disappears completely. */
  lemma {:induction false} RemoveCharRepeat(c: char, n: nat)
    ensures RemoveChar(Repeat(c, n), c) == []
  {
    if n > 0 {
      assert Repeat(c, n)[1..] == Repeat(c, n - 1);
      RemoveCharRepeat(c, n - 1);
    }
  }

  /** A string free of `c` survives deletion intact even when padded with runs
      of `c` on both sides. */
  lemma RemoveCharSurrounded(w: string, c: char, before: nat, after: nat)
    requires c !in w
    ensures RemoveChar(Repeat(c, before) + w + Repeat(c, after), c) == w
  {
    var d1, d2 := Repeat(c, before), Repeat(c, after);
    RemoveCharAppend(d1 + w, d2, c);
    RemoveCharAppend(d1, w, c);
    RemoveCharRepeat(c, before);
    RemoveCharRepeat(c, after);
    RemoveCharFixed(w, c);
  }
}
