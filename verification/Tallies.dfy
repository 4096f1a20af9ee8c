/** Counting the elements of a sequence by their image, and picking from a set. */
module Tallies {

  /** How many elements of `q` have image `u`. */
  function Tally<T, U(==)>(q: seq<T>, f: T -> U, u: U): (n: nat)
    ensures n <= |q|
  {
    if q == [] then 0 else Tally(q[..|q| - 1], f, u) + if f(q[|q| - 1]) == u then 1 else 0
  }

  lemma TallyAppend<T, U>(q: seq<T>, x: T, f: T -> U, u: U)
    ensures Tally(q + [x], f, u) == Tally(q, f, u) + if f(x) == u then 1 else 0
  {
    assert (q + [x])[..|q|] == q;
  }

  lemma {:induction false} TallyConcat<T, U>(a: seq<T>, b: seq<T>, f: T -> U, u: U)
    ensures Tally(a + b, f, u) == Tally(a, f, u) + Tally(b, f, u)
  {
    if b == [] {
      assert a + b == a;
    } else {
      var front := b[..|b| - 1];
      assert a + b == a + front + [b[|b| - 1]];
      TallyAppend(a + front, b[|b| - 1], f, u);
      TallyConcat(a, front, f, u);
    }
  }

  lemma TallyHead<T, U>(q: seq<T>, f: T -> U, u: U)
    requires q != []
    ensures Tally(q, f, u) == (if f(q[0]) == u then 1 else 0) + Tally(q[1..], f, u)
  {
    assert q == [q[0]] + q[1..];
    TallyConcat([q[0]], q[1..], f, u);
    assert [q[0]][..0] == [];
  }

  lemma {:induction false} TallyMember<T, U>(q: seq<T>, f: T -> U, i: nat)
    requires i < |q|
    ensures Tally(q, f, f(q[i])) > 0
  {
    if i < |q| - 1 {
      TallyMember(q[..|q| - 1], f, i);
    }
  }

  lemma Any<T>(s: set<T>) returns (x: T)
    requires s != {}
    ensures x in s
  {
    x :| x in s;
  }
}
