/** Counting the entries of a log that satisfy a predicate. */
module Counting {
  function Count<T>(s: seq<T>, P: T -> bool): nat
    decreases |s|
  {
    if s == [] then 0 else Count(s[..|s| - 1], P) + if P(s[|s| - 1]) then 1 else 0
  }

  lemma CountOne<T>(s: seq<T>, x: T, P: T -> bool)
    ensures Count(s + [x], P) == Count(s, P) + if P(x) then 1 else 0
  {
    assert (s + [x])[..|s|] == s;
  }

  lemma {:induction false} CountAppend<T>(a: seq<T>, b: seq<T>, P: T -> bool)
    ensures Count(a + b, P) == Count(a, P) + Count(b, P)
    decreases |b|
  {
    if b == [] {
      assert a + b == a;
    } else {
      var k := |b| - 1;
      CountAppend(a, b[..k], P);
      CountOne(a + b[..k], b[k], P);
      assert a + b == (a + b[..k]) + [b[k]];
    }
  }

  lemma {:induction false} CountNone<T>(s: seq<T>, P: T -> bool)
    requires forall i | 0 <= i < |s| :: !P(s[i])
    ensures Count(s, P) == 0
    decreases |s|
  {
    if s != [] {
      CountNone(s[..|s| - 1], P);
    }
  }

  lemma {:induction false} CountBound<T>(s: seq<T>, P: T -> bool)
    ensures Count(s, P) <= |s|
    decreases |s|
  {
    if s != [] {
      CountBound(s[..|s| - 1], P);
    }
  }

  /** Growing a log by entries that do not count. */
  lemma CountExtends<T>(a: seq<T>, b: seq<T>, P: T -> bool)
    requires a <= b && forall i | |a| <= i < |b| :: !P(b[i])
    ensures Count(b, P) == Count(a, P)
  {
    assert b == a + b[|a|..];
    CountAppend(a, b[|a|..], P);
    CountNone(b[|a|..], P);
  }
}
