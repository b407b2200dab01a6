/** Facts about finite sets that queries with ORDER BY and COUNT rely on. */
module Collections {

  /** A nonempty finite set has an element with the least key: the first row of an ordered query. */
  lemma {:induction false} LeastExists<T>(s: set<T>, key: T -> int)
    requires s != {}
    ensures exists x :: x in s && forall y :: y in s ==> key(x) <= key(y)
    decreases |s|
  {
    var z :| z in s;
    var rest := s - {z};
    if rest == {} {
      assert s == {z};
    } else {
      LeastExists(rest, key);
      var m :| m in rest && forall y :: y in rest ==> key(m) <= key(y);
      var x := if key(z) <= key(m) then z else m;
      assert x in s && forall y :: y in s ==> y in rest || y == z;
    }
  }

  lemma SubsetSize<T>(a: set<T>, b: set<T>)
    requires a <= b
    ensures |a| <= |b|
  {
    assert |b - a| == |b| - |a|;
  }

  /** The integers from 0 below n. */
  function Upto(n: nat): (s: set<int>)
    ensures |s| == n
    ensures forall i :: i in s <==> 0 <= i < n
  {
    if n == 0 then {} else Upto(n - 1) + {n - 1}
  }
}
