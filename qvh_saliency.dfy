/** Saliency labels for QVHighlights, where every relevant clip carries one
    score per annotator. Only the default `max_n = 1` is modelled. */
module QvhSaliency {
  import opened Results
  import opened PyOps
  import opened Sampling
  import opened Extremes
  import opened Annotations

  /** `set(range(ctx_l)) - set(rel_clip_ids)`: the clips nobody marked relevant. */
  function EasyNegPool(ids: seq<int>, ctxL: int): (pool: set<int>)
    ensures forall x :: x in pool <==> 0 <= x < ctxL && x !in ids
  {
    set x | 0 <= x < ctxL && x !in ids
  }

  /** What `get_saliency_labels` and `get_saliency_labels_all` promise of
      the two label lists: the first positive is a relevant clip of maximal
      summed score and the first negative one of minimal summed score, both
      cut to `ctxL - 1`; with easy
      negatives on, a second positive drawn from the relevant clips and a
      second negative drawn from the rest, or copies of the first ones when
      no clip is left over. */
  ghost predicate HardEasyOk(ids: seq<int>, agg: seq<int>, ctxL: int, addEasyNegative: bool,
                             pos: seq<int>, neg: seq<int>)
    requires |ids| == |agg|
  {
    && |pos| == |neg| == (if addEasyNegative then 2 else 1)
    && (exists k :: IsArgMax(agg, k) && pos[0] == Min(ids[k], ctxL - 1))
    && (exists k :: IsArgMin(agg, k) && neg[0] == Min(ids[k], ctxL - 1))
    && (addEasyNegative && EasyNegPool(ids, ctxL) != {} ==>
          pos[1] in ids && 0 <= neg[1] < ctxL && neg[1] !in ids)
    && (addEasyNegative && EasyNegPool(ids, ctxL) == {} ==>
          pos[1] == pos[0] && neg[1] == neg[0])
  }

  predicate NonNegative(ids: seq<int>) {
    forall i :: 0 <= i < |ids| ==> ids[i] >= 0
  }

  /** The hard and easy positives and negatives, from the summed scores `agg`
      of the relevant clips `ids`. */
  method HardAndEasy(ids: seq<int>, agg: seq<int>, ctxL: int, addEasyNegative: bool)
    returns (pos: seq<int>, neg: seq<int>)
    requires |ids| == |agg| > 0
    ensures HardEasyOk(ids, agg, ctxL, addEasyNegative, pos, neg)
    ensures NonNegative(ids) && ctxL >= 1 ==> 0 <= pos[0] < ctxL && 0 <= neg[0] < ctxL
  {
    var kp := ArgSortLast(agg);
    var kn := ArgSortFirst(agg);
    var hardPos := [Min(ids[kp], ctxL - 1)];
    var hardNeg := [Min(ids[kn], ctxL - 1)];
    var easyPos: seq<int> := [];
    var easyNeg: seq<int> := [];
    if addEasyNegative {
      var pool := EasyNegPool(ids, ctxL);
      if |pool| >= 1 {
        var s := Sample(ids, 1);
        assert s.value[0] in multiset(s.value);
        easyPos := s.value;
        var e :| e in pool;
        easyNeg := [e];
      } else {
        easyPos, easyNeg := hardPos, hardNeg;
      }
    }
    pos := hardPos + easyPos;
    neg := hardNeg + easyNeg;
  }

  /** `get_saliency_labels`: positive and negative clips only, as a pair.
      With no relevant clip, `np.array(scores)` is one-dimensional and the
      sum over its axis 1 raises AxisError. */
  method SaliencyLabels(ids: seq<int>, scores: seq<seq<int>>, ctxL: int, addEasyNegative: bool)
    returns (r: Result<(seq<int>, seq<int>)>)
    requires |ids| == |scores|
    ensures r.Err? <==> |scores| == 0
    ensures r.Err? ==> r.error == AxisError
    ensures r.Ok? ==> HardEasyOk(ids, RowSums(scores), ctxL, addEasyNegative, r.value.0, r.value.1)
    ensures r.Ok? && NonNegative(ids) && ctxL >= 1 ==>
              0 <= r.value.0[0] < ctxL && 0 <= r.value.1[0] < ctxL
  {
    if |scores| == 0 {
      return Err(AxisError);
    }
    var pos, neg := HardAndEasy(ids, RowSums(scores), ctxL, addEasyNegative);
    r := Ok((pos, neg));
  }

  /** The index of the last occurrence of `p`. */
  function LastIndexOf(ids: seq<int>, p: int): (i: int)
    requires p in ids
    ensures 0 <= i < |ids| && ids[i] == p
    ensures forall j :: i < j < |ids| ==> ids[j] != p
  {
    if ids[|ids| - 1] == p then |ids| - 1 else LastIndexOf(ids[..|ids| - 1], p)
  }

  /** The score clip `p` ends up with: the summed score of the last entry
      naming it, or 0 for a clip no entry names. */
  function ScoreAt(ids: seq<int>, agg: seq<int>, p: int): int
    requires |ids| <= |agg|
  {
    if p in ids then agg[LastIndexOf(ids, p)] else 0
  }

  /** The ids the score array can take: each within `[0, ctxL]`, and `ctxL`
      itself at most once (a second one, or a larger one, makes NumPy raise). */
  predicate ValidClipIds(ids: seq<int>, ctxL: nat) {
    && (forall i :: 0 <= i < |ids| ==> 0 <= ids[i] <= ctxL)
    && (forall i, j :: 0 <= i < j < |ids| && ids[i] == ctxL ==> ids[j] != ctxL)
  }

  lemma ScoreAtSnoc(ids: seq<int>, agg: seq<int>, i: int, p: int)
    requires 0 <= i < |ids| <= |agg|
    ensures ScoreAt(ids[..i + 1], agg, p) == if p == ids[i] then agg[i] else ScoreAt(ids[..i], agg, p)
  {
    assert ids[..i + 1][..i] == ids[..i];
    assert ids[..i + 1] == ids[..i] + [ids[i]];
  }

  /** A relevant clip that no later entry names holds that entry's summed score. */
  lemma ScoreAtLastWrite(ids: seq<int>, agg: seq<int>, i: int)
    requires 0 <= i < |ids| <= |agg|
    requires forall j :: i < j < |ids| ==> ids[j] != ids[i]
    ensures ScoreAt(ids, agg, ids[i]) == agg[i]
  {
  }

  /** The score array of `get_saliency_labels_all`: `ctxL` zeros, one longer if some id
      is `ctxL`, each named clip set to its summed score, later entries
      overwriting earlier ones. */
  method ScoreArray(ids: seq<int>, agg: seq<int>, ctxL: nat) returns (s: seq<int>)
    requires |ids| == |agg|
    requires ValidClipIds(ids, ctxL)
    ensures |s| == ctxL + (if ctxL in ids then 1 else 0)
    ensures forall p :: 0 <= p < |s| ==> s[p] == ScoreAt(ids, agg, p)
  {
    var a := new int[ctxL](_ => 0);
    var i := 0;
    while i < |ids|
      invariant 0 <= i <= |ids|
      invariant fresh(a)
      invariant a.Length == ctxL + (if ctxL in ids[..i] then 1 else 0)
      invariant forall p :: 0 <= p < a.Length ==> a[p] == ScoreAt(ids[..i], agg, p)
    {
      if ids[i] >= ctxL {
        assert ctxL !in ids[..i];
        var b := new int[ctxL + 1](_ => 0);
        forall p | 0 <= p < ctxL {
          b[p] := a[p];
        }
        a := b;
      }
      a[ids[i]] := agg[i];
      forall p | 0 <= p < a.Length ensures a[p] == ScoreAt(ids[..i + 1], agg, p) {
        ScoreAtSnoc(ids, agg, i, p);
      }
      assert ids[..i + 1] == ids[..i] + [ids[i]];
      i := i + 1;
    }
    assert ids[..i] == ids;
    s := a[..];
  }

  /** `get_saliency_labels_all`: the two label lists and the per-clip score
      array. No relevant clip raises AxisError, as in `SaliencyLabels`,
      before the score array is built. */
  method SaliencyLabelsAll(ids: seq<int>, scores: seq<seq<int>>, ctxL: nat, addEasyNegative: bool)
    returns (r: Result<ClipLabels>)
    requires |ids| == |scores|
    requires ValidClipIds(ids, ctxL)
    ensures r.Err? <==> |scores| == 0
    ensures r.Err? ==> r.error == AxisError
    ensures r.Ok? ==> HardEasyOk(ids, RowSums(scores), ctxL, addEasyNegative, r.value.pos, r.value.neg)
    ensures r.Ok? && ctxL >= 1 ==> 0 <= r.value.pos[0] < ctxL && 0 <= r.value.neg[0] < ctxL
    ensures r.Ok? ==> |r.value.scores| == ctxL + (if ctxL in ids then 1 else 0)
    ensures r.Ok? ==> forall p :: 0 <= p < |r.value.scores| ==>
              r.value.scores[p] == ScoreAt(ids, RowSums(scores), p)
  {
    if |scores| == 0 {
      return Err(AxisError);
    }
    var agg := RowSums(scores);
    var pos, neg := HardAndEasy(ids, agg, ctxL, addEasyNegative);
    var all := ScoreArray(ids, agg, ctxL);
    r := Ok(ClipLabels(pos, neg, all));
  }
}
