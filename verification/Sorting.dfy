/** Python's sorted() on a set of numbers. */
module Sorting {
  ghost predicate IsLeast(s: set<nat>, m: nat) { m in s && forall x <- s :: m <= x }

  lemma {:induction false} LeastExists(s: set<nat>)
    requires s != {}
    ensures exists m :: IsLeast(s, m)
    decreases s
  {
    var m :| m in s;
    var rest := s - {m};
    if rest == {} {
      assert s == {m};
      assert IsLeast(s, m);
    } else {
      LeastExists(rest);
      var k :| IsLeast(rest, k);
      LeastOf(s, m, rest, k);
    }
  }

  lemma LeastOf(s: set<nat>, m: nat, rest: set<nat>, k: nat)
    requires m in s && rest == s - {m} && IsLeast(rest, k)
    ensures IsLeast(s, if k < m then k else m)
  {
    forall x | x in s
      ensures (if k < m then k else m) <= x
    {
      assert x == m || x in rest;
    }
  }

  function Least(s: set<nat>): (m: nat)
    requires s != {}
    ensures m in s && forall x <- s :: m <= x
  {
    LeastExists(s);
    assert exists m :: m in s && forall x <- s :: m <= x by {
      var m :| IsLeast(s, m);
      assert m in s && forall x <- s :: m <= x;
    }
    var m: nat :| m in s && forall x <- s :: m <= x;
    m
  }

  /** sorted(s) */
  function Ascending(s: set<nat>): (r: seq<nat>)
    ensures forall n :: n in r <==> n in s
    ensures forall i, j :: 0 <= i < j < |r| ==> r[i] < r[j]
    decreases |s|
  {
    if s == {} then [] else [Least(s)] + Ascending(s - {Least(s)})
  }
}
