/** Row selection as a SQL `WHERE` clause does it: the rows that satisfy a
    condition, in storage order. */
module Filtering {

  function Filter<T(!new)>(s: seq<T>, keep: T -> bool): (r: seq<T>)
    ensures |r| <= |s|
    ensures forall x :: x in r <==> x in s && keep(x)
    ensures multiset(r) <= multiset(s)
  {
    if s == [] then []
    else
      assert s == [s[0]] + s[1..];
      if keep(s[0]) then [s[0]] + Filter(s[1..], keep)
      else Filter(s[1..], keep)
  }

  /** Selecting by a condition and by its negation splits the table: every
      row lands in exactly one of the two parts. */
  lemma {:induction false} FilterPartition<T(!new)>(s: seq<T>, keep: T -> bool, drop: T -> bool)
    requires forall x :: drop(x) == !keep(x)
    ensures multiset(Filter(s, keep)) + multiset(Filter(s, drop)) == multiset(s)
  {
    if s != [] {
      var x, t := s[0], s[1..];
      FilterPartition(t, keep, drop);
      assert s == [x] + t;
      assert multiset(s) == multiset{x} + multiset(t);
      if keep(x) {
        assert Filter(s, keep) == [x] + Filter(t, keep);
        assert Filter(s, drop) == Filter(t, drop);
      } else {
        assert Filter(s, keep) == Filter(t, keep);
        assert Filter(s, drop) == [x] + Filter(t, drop);
      }
    }
  }

  /** The first selected row is the first row of the table that satisfies
      the condition. */
  lemma {:induction false} FilterFirst<T(!new)>(s: seq<T>, keep: T -> bool)
    requires Filter(s, keep) != []
    ensures exists i :: 0 <= i < |s| && s[i] == Filter(s, keep)[0] && keep(s[i])
                        && forall j :: 0 <= j < i ==> !keep(s[j])
  {
    if !keep(s[0]) {
      FilterFirst(s[1..], keep);
      var i :| 0 <= i < |s[1..]| && s[1..][i] == Filter(s[1..], keep)[0] && keep(s[1..][i])
               && forall j :: 0 <= j < i ==> !keep(s[1..][j]);
      assert s[i + 1] == Filter(s, keep)[0];
      assert forall j :: 0 <= j < i + 1 ==> !keep(s[j]) by {
        forall j | 0 <= j < i + 1 ensures !keep(s[j]) {
          if j > 0 { assert s[j] == s[1..][j - 1]; }
        }
      }
    } else {
      assert s[0] == Filter(s, keep)[0];
    }
  }
}
