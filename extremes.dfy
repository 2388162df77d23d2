/** The first and last entries of `np.argsort(agg)`. NumPy's default sort is
    not stable, so among tied scores any index may come first or last: the
    model promises an index attaining the minimum or the maximum, no more. */
module Extremes {

  predicate IsArgMax(agg: seq<int>, k: int) {
    0 <= k < |agg| && forall j :: 0 <= j < |agg| ==> agg[j] <= agg[k]
  }

  predicate IsArgMin(agg: seq<int>, k: int) {
    0 <= k < |agg| && forall j :: 0 <= j < |agg| ==> agg[k] <= agg[j]
  }

  lemma {:induction false} ArgMaxExists(agg: seq<int>)
    requires |agg| > 0
    ensures exists k :: IsArgMax(agg, k)
  {
    if |agg| == 1 {
      assert IsArgMax(agg, 0);
    } else {
      var init := agg[..|agg| - 1];
      ArgMaxExists(init);
      var k :| IsArgMax(init, k);
      if agg[|agg| - 1] <= agg[k] {
        assert IsArgMax(agg, k);
      } else {
        assert IsArgMax(agg, |agg| - 1);
      }
    }
  }

  lemma {:induction false} ArgMinExists(agg: seq<int>)
    requires |agg| > 0
    ensures exists k :: IsArgMin(agg, k)
  {
    if |agg| == 1 {
      assert IsArgMin(agg, 0);
    } else {
      var init := agg[..|agg| - 1];
      ArgMinExists(init);
      var k :| IsArgMin(init, k);
      if agg[k] <= agg[|agg| - 1] {
        assert IsArgMin(agg, k);
      } else {
        assert IsArgMin(agg, |agg| - 1);
      }
    }
  }

  /** `np.argsort(agg)[-1]`. */
  method ArgSortLast(agg: seq<int>) returns (k: int)
    requires |agg| > 0
    ensures IsArgMax(agg, k)
  {
    ArgMaxExists(agg);
    k :| IsArgMax(agg, k);
  }

  /** `np.argsort(agg)[0]`. */
  method ArgSortFirst(agg: seq<int>) returns (k: int)
    requires |agg| > 0
    ensures IsArgMin(agg, k)
  {
    ArgMinExists(agg);
    k :| IsArgMin(agg, k);
  }
}
