/** Sets of numbers: counting them and listing them in order. */
module Ids {

  lemma {:induction false} AtMost(n: nat, ids: set<nat>)
    requires forall b :: b in ids ==> b < n
    ensures |ids| <= n
  {
    if n > 0 { AtMost(n - 1, ids - {n - 1}); }
    else { assert ids == {}; }
  }

  lemma SubsetSize<T>(a: set<T>, b: set<T>)
    requires a <= b
    ensures |a| <= |b| && (|a| == |b| ==> a == b)
  {
    assert b == a + (b - a);
  }

  /** `n` distinct numbers below `n` leave none out. */
  lemma Pigeonhole(n: nat, ids: set<nat>, id: nat)
    requires (forall b :: b in ids ==> b < n) && |ids| == n && id < n
    ensures id in ids
  {
    if id !in ids {
      AtMost(n, ids + {id});
    }
  }

  /** Fewer than `n` numbers leave one below `n` out. */
  lemma {:induction false} Missing(n: nat, ids: set<nat>) returns (id: nat)
    requires |ids| < n
    ensures id < n && id !in ids
  {
    if n - 1 in ids {
      id := Missing(n - 1, ids - {n - 1});
    } else {
      id := n - 1;
    }
  }

  predicate Least(k: nat, ids: set<nat>) { k in ids && forall x :: x in ids ==> k <= x }

  lemma {:induction false} LeastExists(ids: set<nat>)
    requires ids != {}
    ensures exists k :: Least(k, ids)
  {
    var k :| k in ids;
    if ids == {k} {
      assert Least(k, ids);
    } else {
      LeastExists(ids - {k});
      var l :| Least(l, ids - {k});
      var m := if k < l then k else l;
      assert forall x :: x in ids ==> x == k || x in ids - {k};
      assert Least(m, ids);
    }
  }

  /** The members of a set in ascending order. */
  function Ascending(ids: set<nat>): (r: seq<nat>)
    ensures forall k :: k in r <==> k in ids
    ensures forall i, j :: 0 <= i < j < |r| ==> r[i] < r[j]
  {
    if ids == {} then []
    else
      LeastExists(ids);
      var k :| Least(k, ids);
      [k] + Ascending(ids - {k})
  }
}
