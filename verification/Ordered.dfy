/** Iteration order of std::set and std::map: keys in ascending order. */
module Ordered {
  import opened Packets

  predicate IsLeast(s: set<U32>, m: U32) {
    m in s && forall x | x in s :: m <= x
  }

  lemma LeastExists(s: set<U32>)
    requires s != {}
    ensures exists m: U32 :: IsLeast(s, m)
  {
    var x :| x in s;
    var rest := s - {x};
    assert forall y | y in s :: y == x || y in rest;
    if rest == {} {
      assert IsLeast(s, x);
    } else {
      LeastExists(rest);
      var m: U32 :| IsLeast(rest, m);
      assert IsLeast(s, if x <= m then x else m);
    }
  }

  ghost function Least(s: set<U32>): (m: U32)
    requires s != {}
    ensures IsLeast(s, m)
  {
    LeastExists(s);
    var m: U32 :| IsLeast(s, m);
    m
  }

  ghost function Ascending(s: set<U32>): seq<U32> {
    if s == {} then [] else [Least(s)] + Ascending(s - {Least(s)})
  }

  lemma {:induction false} AscendingIsSorted(s: set<U32>)
    ensures |Ascending(s)| == |s|
    ensures forall x: U32 :: x in Ascending(s) <==> x in s
    ensures forall i, j | 0 <= i < j < |Ascending(s)| :: Ascending(s)[i] < Ascending(s)[j]
  {
    if s != {} {
      var m := Least(s);
      var rest := Ascending(s - {m});
      AscendingIsSorted(s - {m});
      assert Ascending(s) == [m] + rest;
      hide Ascending;
      forall j | 0 <= j < |rest| ensures m < rest[j] {
        assert rest[j] in rest;
      }
    }
  }

  lemma AscendingEmpty(s: set<U32>)
    ensures Ascending(s) == [] <==> s == {}
  {
  }

  lemma AscendingStep(s: set<U32>, m: U32)
    requires IsLeast(s, m)
    ensures Ascending(s) == [m] + Ascending(s - {m})
  {
    assert Least(s) == m;
  }

  /** The copy loop of vector::assign over a std::set. */
  method Listed(s: set<U32>) returns (r: seq<U32>)
    ensures r == Ascending(s)
  {
    var rest := s;
    r := [];
    while rest != {}
      invariant r + Ascending(rest) == Ascending(s)
      decreases |rest|
    {
      LeastExists(rest);
      var m: U32 :| m in rest && IsLeast(rest, m);
      AscendingStep(rest, m);
      assert r + ([m] + Ascending(rest - {m})) == (r + [m]) + Ascending(rest - {m});
      r, rest := r + [m], rest - {m};
    }
    assert Ascending(rest) == [];
  }
}
