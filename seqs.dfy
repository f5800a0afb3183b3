/**
 Association lists as the store keeps them: a delete removes every row that
 carries the given id.
 */
module Seqs {

  /** `s` with every occurrence of `x` deleted, the rest in order. */
  function Without(s: seq<string>, x: string): (r: seq<string>)
    ensures forall y :: y in r <==> y in s && y != x
    ensures |r| <= |s|
  {
    if s == [] then []
    else if s[0] == x then Without(s[1..], x)
    else [s[0]] + Without(s[1..], x)
  }

  /** Deleting an id that is not there changes nothing. */
  lemma {:induction false} WithoutAbsent(s: seq<string>, x: string)
    requires x !in s
    ensures Without(s, x) == s
  {
    if s != [] {
      WithoutAbsent(s[1..], x);
    }
  }

  /** Deleting distributes over concatenation. */
  lemma {:induction false} WithoutConcat(s: seq<string>, t: seq<string>, x: string)
    ensures Without(s + t, x) == Without(s, x) + Without(t, x)
  {
    if s == [] {
      assert s + t == t;
    } else {
      assert (s + t)[1..] == s[1..] + t;
      WithoutConcat(s[1..], t, x);
    }
  }

  /** Appending an id and deleting it again gives back the list it was appended to. */
  lemma AppendThenWithout(s: seq<string>, x: string)
    requires x !in s
    ensures Without(s + [x], x) == s
  {
    WithoutConcat(s, [x], x);
    WithoutAbsent(s, x);
    assert Without([x], x) == [];
  }
}
