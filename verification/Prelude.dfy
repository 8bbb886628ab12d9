/** Options, and the least and greatest member of a finite set of instants. */
module Prelude {
  datatype Option<+T> = None | Some(value: T)

  function Max(a: int, b: int): int {
    if a < b then b else a
  }

  lemma {:induction false} LeastExists(s: set<int>)
    requires exists x :: x in s
    ensures exists m :: m in s && forall x :: x in s ==> m <= x
    decreases s
  {
    var m :| m in s;
    if y :| y in s && y < m {
      var better := set x | x in s && x < m;
      assert y in better && m !in better;
      LeastExists(better);
      var k :| k in better && forall x :: x in better ==> k <= x;
      forall x | x in s
        ensures k <= x
      {
        assert x < m ==> x in better;
      }
      assert k in s;
    }
  }

  lemma {:induction false} GreatestExists(s: set<int>)
    requires exists x :: x in s
    ensures exists m :: m in s && forall x :: x in s ==> x <= m
    decreases s
  {
    var m :| m in s;
    if y :| y in s && m < y {
      var better := set x | x in s && m < x;
      assert y in better && m !in better;
      GreatestExists(better);
      var k :| k in better && forall x :: x in better ==> x <= k;
      forall x | x in s
        ensures x <= k
      {
        assert m < x ==> x in better;
      }
      assert k in s;
    }
  }

  /** `ORDER BY x LIMIT 1`. */
  function Earliest(s: set<int>): (r: Option<int>)
    ensures r.None? <==> forall x :: x !in s
    ensures r.Some? ==> r.value in s && forall x :: x in s ==> r.value <= x
  {
    if exists x :: x in s then
      LeastExists(s);
      var m :| m in s && forall x :: x in s ==> m <= x;
      Some(m)
    else None
  }

  /** `ORDER BY x DESC LIMIT 1`. */
  function Latest(s: set<int>): (r: Option<int>)
    ensures r.None? <==> forall x :: x !in s
    ensures r.Some? ==> r.value in s && forall x :: x in s ==> x <= r.value
  {
    if exists x :: x in s then
      GreatestExists(s);
      var m :| m in s && forall x :: x in s ==> x <= m;
      Some(m)
    else None
  }

  lemma SubsetIsSmaller(a: set<int>, b: set<int>)
    requires a <= b
    ensures |a| <= |b|
  {
    assert b == a + (b - a);
  }
}
