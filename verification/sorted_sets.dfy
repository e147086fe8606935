/** Python's `sorted(s)` for a finite set of integers. */
module SortedSets {

  predicate StrictlyIncreasing(s: seq<int>) {
    forall i, j :: 0 <= i < j < |s| ==> s[i] < s[j]
  }

  lemma LemmaHasElement(s: set<int>)
    requires s != {}
    ensures exists y :: y in s
  {
    if forall o :: o !in s {
      assert false;
    }
  }

  lemma {:induction false} LemmaHasMinimum(s: set<int>)
    requires s != {}
    ensures exists m :: m in s && forall x :: x in s ==> m <= x
    decreases |s|
  {
    LemmaHasElement(s);
    var y :| y in s;
    if s - {y} == {} {
      assert s == {y};
    } else {
      LemmaHasMinimum(s - {y});
      var m :| m in s - {y} && forall x :: x in s - {y} ==> m <= x;
      var lo := if y < m then y else m;
      forall x | x in s
        ensures lo <= x
      {
        if x != y {
          assert x in s - {y};
        }
      }
      assert lo in s;
    }
  }

  function Minimum(s: set<int>): (m: int)
    requires s != {}
    ensures m in s
    ensures forall x :: x in s ==> m <= x
  {
    LemmaHasMinimum(s);
    var m :| m in s && forall x :: x in s ==> m <= x;
    m
  }

  /** The elements of s in increasing order, each exactly once. */
  function Sorted(s: set<int>): (r: seq<int>)
    ensures |r| == |s|
    ensures forall x :: x in r <==> x in s
    ensures StrictlyIncreasing(r)
    decreases |s|
  {
    if s == {} then []
    else
      var m := Minimum(s);
      var rest := Sorted(s - {m});
      LemmaPrependSmaller(m, rest);
      [m] + rest
  }

  /** Putting an element below every element of an increasing sequence in front keeps it increasing. */
  lemma LemmaPrependSmaller(m: int, rest: seq<int>)
    requires StrictlyIncreasing(rest)
    requires forall x :: x in rest ==> m < x
    ensures StrictlyIncreasing([m] + rest)
  {
    var r := [m] + rest;
    forall i, j | 0 <= i < j < |r|
      ensures r[i] < r[j]
    {
      assert r[j] == rest[j - 1];
      if i > 0 {
        assert r[i] == rest[i - 1];
      } else {
        assert rest[j - 1] in rest;
      }
    }
  }
}
