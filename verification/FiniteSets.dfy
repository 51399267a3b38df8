/** Sizes and least elements of finite sets of integers.

    Used for the 64 timer ids, of which the least free one is taken and which run out exactly
    when 64 timers are pending, and for the keys of a shortcut, which the program keeps in a
    std::set and writes out in ascending order. */
module FiniteSets {

  ghost function Range(n: nat): (r: set<int>)
    ensures |r| == n && forall k :: k in r <==> 0 <= k < n
  {
    if n == 0 then {} else Range(n - 1) + {n - 1}
  }

  lemma SubsetSize(a: set<int>, b: set<int>)
    requires a <= b
    ensures |a| <= |b|
  {
    assert b == a + (b - a);
  }

  lemma SubsetOfSameSize(a: set<int>, b: set<int>)
    requires a <= b && |a| == |b|
    ensures a == b
  {
    assert b == a + (b - a);
    HasElement(b - a);
  }

  lemma HasElement(a: set<int>)
    ensures a == {} || exists x :: x in a
  {
    if forall x :: x !in a { assert a == {}; }
  }

  lemma {:induction false} HasLeast(a: set<int>)
    requires a != {}
    ensures exists m :: m in a && forall x | x in a :: m <= x
    decreases |a|
  {
    HasElement(a);
    var y :| y in a;
    var rest := a - {y};
    if rest == {} {
      assert a == {y};
      assert y in a && forall x | x in a :: y <= x;
    } else {
      HasLeast(rest);
      var m :| m in rest && forall x | x in rest :: m <= x;
      var l := if y < m then y else m;
      assert l in a && forall x | x in a :: l <= x by { assert a == rest + {y}; }
    }
  }

  function Least(a: set<int>): (m: int)
    requires a != {}
    ensures m in a && forall x | x in a :: m <= x
  {
    HasLeast(a);
    var m :| m in a && forall x | x in a :: m <= x;
    m
  }

  /** The elements in ascending order, as std::set enumerates them. */
  function Ascending(a: set<int>): (r: seq<int>)
    ensures forall x :: x in r <==> x in a
    decreases |a|
  {
    if a == {} then [] else [Least(a)] + Ascending(a - {Least(a)})
  }
}
