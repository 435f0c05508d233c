/** Sums of a weight over a list of ids. */
module Weights {
  import opened Models
  import opened Graph

  /** The sum of a weight over a list of distinct ids only depends on the set of the ids. */
  function WeightOf(ids: seq<Id>, w: map<Id, int>): int {
    if ids == [] then 0
    else WeightOf(ids[..|ids| - 1], w) + if ids[|ids| - 1] in w then w[ids[|ids| - 1]] else 0
  }

  lemma {:induction false} WeightRemove(ids: seq<Id>, w: map<Id, int>, k: nat)
    requires k < |ids|
    ensures WeightOf(ids, w) == WeightOf(ids[..k] + ids[k + 1..], w) + if ids[k] in w then w[ids[k]] else 0
  {
    var rest := ids[..k] + ids[k + 1..];
    if k == |ids| - 1 {
      assert rest == ids[..k];
    } else {
      var init := ids[..|ids| - 1];
      WeightRemove(init, w, k);
      assert rest[..|rest| - 1] == init[..k] + init[k + 1..];
    }
  }

  lemma FirstIn(y: seq<Id>)
    requires y != []
    ensures y[0] in y
  {
  }

  lemma {:induction false} WeightSameSet(x: seq<Id>, y: seq<Id>, w: map<Id, int>)
    requires Distinct(x) && Distinct(y)
    requires forall n :: n in x <==> n in y
    ensures WeightOf(x, w) == WeightOf(y, w)
    decreases |x|
  {
    if x == [] {
      if y != [] {
        FirstIn(y);
        assert false;
      }
    } else {
      var n := |x| - 1;
      assert x[n] in y;
      var k :| 0 <= k < |y| && y[k] == x[n];
      var rest := y[..k] + y[k + 1..];
      WeightRemove(y, w, k);
      assert x == x[..n] + [x[n]];
      forall m ensures m in x[..n] <==> m in rest {
        if m in rest {
          assert m in y;
        }
        if m in x[..n] {
          assert m in x && m in y;
          var j :| 0 <= j < |y| && y[j] == m;
          assert j < k ==> rest[j] == m;
          assert k < j ==> rest[j - 1] == m;
        }
      }
      WeightSameSet(x[..n], rest, w);
    }
  }

  /** A prefix weighs no more than the whole, where no weight is negative. */
  lemma {:induction false} WeightPrefix(ids: seq<Id>, w: map<Id, int>, k: nat)
    requires k <= |ids| && forall n :: n in w ==> 0 <= w[n]
    ensures 0 <= WeightOf(ids[..k], w) <= WeightOf(ids, w)
  {
    if k < |ids| {
      assert ids[..|ids| - 1][..k] == ids[..k];
      WeightPrefix(ids[..|ids| - 1], w, k);
    } else {
      assert ids[..k] == ids;
      if 0 < k {
        assert ids[..k - 1][..k - 1] == ids[..k - 1];
        WeightPrefix(ids[..k - 1], w, k - 1);
      }
    }
  }
}
