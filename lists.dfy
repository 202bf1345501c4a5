/** Sequence helpers shared by the catalogue tables and the stations' selection lists. */
module Lists {
  /** No element occurs twice. */
  predicate Distinct<T(==)>(s: seq<T>) {
    forall i, j :: 0 <= i < j < |s| ==> s[i] != s[j]
  }

  /** `s.filter(y => y !== x)`: every occurrence of x removed, the rest kept in order. */
  function Without<T(==)>(s: seq<T>, x: T): (r: seq<T>)
    ensures forall i :: 0 <= i < |r| ==> r[i] in s && r[i] != x
    ensures forall i :: 0 <= i < |s| && s[i] != x ==> s[i] in r
    ensures |r| <= |s| && (x in s ==> |r| < |s|)
    ensures x !in s ==> r == s
    ensures Distinct(s) ==> Distinct(r)
  {
    if s == [] then []
    else
      var rest := Without(s[1..], x);
      assert forall i :: 1 <= i < |s| ==> s[i] == s[1..][i - 1];
      if s[0] == x then rest
      else
        assert forall i :: 1 <= i < |s| ==> s[i] != s[0] || !Distinct(s);
        [s[0]] + rest
  }

  /** `s.filter(y => t.includes(y))`: the elements of s that occur in t, in order. */
  function Keep<T(==)>(s: seq<T>, t: seq<T>): (r: seq<T>)
    ensures forall i :: 0 <= i < |r| ==> r[i] in s && r[i] in t
    ensures forall i :: 0 <= i < |s| && s[i] in t ==> s[i] in r
    ensures |r| <= |s|
    ensures Distinct(s) ==> Distinct(r)
  {
    if s == [] then []
    else if s[0] in t then [s[0]] + Keep(s[1..], t)
    else Keep(s[1..], t)
  }

  /** A duplicate-free list whose elements all occur in t is no longer than t. */
  lemma {:induction false} DistinctWithinBound<T>(s: seq<T>, t: seq<T>)
    requires Distinct(s) && forall x :: x in s ==> x in t
    ensures |s| <= |t|
  {
    if s != [] {
      var x := s[0];
      forall y | y in s[1..] ensures y in Without(t, x) {
        var k :| 1 <= k < |s| && s[k] == y;
        assert s[0] != s[k];
        assert y in t;
        var j :| 0 <= j < |t| && t[j] == y;
      }
      DistinctWithinBound(s[1..], Without(t, x));
    }
  }

  /** Appending x and then removing every x is the same as removing every x. */
  lemma {:induction false} WithoutAppended<T>(s: seq<T>, x: T)
    ensures Without(s + [x], x) == Without(s, x)
  {
    if s == [] {
      assert [] + [x] == [x];
      assert [x][1..] == [];
    } else {
      assert (s + [x])[1..] == s[1..] + [x];
      WithoutAppended(s[1..], x);
    }
  }
}
