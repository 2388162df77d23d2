/** Saliency labels for TVSum and YouTube Highlights, where every clip of the
    video carries a score. Only the defaults `max_n = 1` and
    `add_easy_negative = False` are modelled. */
module HighlightIndices {
  import opened Results
  import opened PyOps
  import opened Extremes
  import opened Annotations

  /** `np.sum(labels - 1, axis=-1)[:ctx_l]`: per clip, the sum of the
      annotators' scores counted from 0 instead of 1, for the first `ctxL` clips. */
  function TvSumScores(labels: seq<seq<int>>, ctxL: nat): (agg: seq<int>)
    ensures |agg| == Min(|labels|, ctxL)
    ensures forall i :: 0 <= i < |agg| ==> agg[i] == RowSum(labels[i]) - |labels[i]|
  {
    seq(Min(|labels|, ctxL), i requires 0 <= i < Min(|labels|, ctxL) => RowSum(labels[i]) - |labels[i]|)
  }

  /** TVSum annotators score each clip from 1 to 5, so a clip's aggregate
      lies between 0 and 4 points per annotator. */
  lemma TvSumScoresBounds(labels: seq<seq<int>>, ctxL: nat)
    requires forall i, j :: 0 <= i < |labels| && 0 <= j < |labels[i]| ==> 1 <= labels[i][j] <= 5
    ensures forall i :: 0 <= i < |TvSumScores(labels, ctxL)| ==>
              0 <= TvSumScores(labels, ctxL)[i] <= 4 * |labels[i]|
  {
    forall i | 0 <= i < |TvSumScores(labels, ctxL)|
      ensures 0 <= TvSumScores(labels, ctxL)[i] <= 4 * |labels[i]|
    {
      RowSumBounds(labels[i], 1, 5);
    }
  }

  /** `get_saliency_labels_all_tvsum`, with the unscaled aggregate as score
      list. An empty label array sums to a NumPy scalar, and slicing that
      scalar raises IndexError. The scores are cut to `ctxL` clips before the
      arg-max and arg-min, so the `min(idx, ctx_l - 1)` never changes an
      index; a video with no clips gets empty label lists. */
  method SaliencyLabelsTvSum(labels: seq<seq<int>>, ctxL: nat) returns (r: Result<ClipLabels>)
    ensures r.Err? <==> |labels| == 0
    ensures r.Err? ==> r.error == IndexError
    ensures r.Ok? ==> r.value.scores == TvSumScores(labels, ctxL)
    ensures r.Ok? && ctxL == 0 ==> r.value.pos == [] && r.value.neg == []
    ensures r.Ok? && ctxL > 0 ==> |r.value.pos| == 1 && |r.value.neg| == 1
    ensures r.Ok? && ctxL > 0 ==>
              IsArgMax(r.value.scores, r.value.pos[0]) && IsArgMin(r.value.scores, r.value.neg[0])
    ensures r.Ok? && ctxL > 0 ==> 0 <= r.value.pos[0] < ctxL && 0 <= r.value.neg[0] < ctxL
  {
    if |labels| == 0 {
      return Err(IndexError);
    }
    var agg := TvSumScores(labels, ctxL);
    var hardPos: seq<int> := [];
    var hardNeg: seq<int> := [];
    if |agg| > 0 {
      var kp := ArgSortLast(agg);
      var kn := ArgSortFirst(agg);
      hardPos := [Min(kp, ctxL - 1)];
      hardNeg := [Min(kn, ctxL - 1)];
    }
    r := Ok(ClipLabels(hardPos, hardNeg, agg));
  }

  /** Every row of a YouTube Highlights label array has its binary score in column 0. */
  predicate HasFirstColumn(labels: seq<seq<int>>) {
    |labels| > 0 && forall i :: 0 <= i < |labels| ==> |labels[i]| > 0
  }

  /** `np.array(labels)[:, 0]`. */
  function FirstColumn(labels: seq<seq<int>>): (agg: seq<int>)
    requires HasFirstColumn(labels)
    ensures |agg| == |labels|
    ensures forall i :: 0 <= i < |agg| ==> agg[i] == labels[i][0]
  {
    seq(|labels|, i requires 0 <= i < |labels| => labels[i][0])
  }

  /** `get_saliency_labels_all_youtube`. The score list is not cut to `ctxL`,
      so here the `min(idx, ctx_l - 1)` does keep both indices below `ctxL`.
      Labels without a first column raise IndexError. */
  method SaliencyLabelsYoutube(labels: seq<seq<int>>, ctxL: int) returns (r: Result<ClipLabels>)
    ensures r.Err? <==> !HasFirstColumn(labels)
    ensures r.Err? ==> r.error == IndexError
    ensures r.Ok? ==> r.value.scores == FirstColumn(labels)
    ensures r.Ok? ==> |r.value.pos| == 1 && |r.value.neg| == 1
    ensures r.Ok? ==> exists k :: IsArgMax(r.value.scores, k) && r.value.pos[0] == Min(k, ctxL - 1)
    ensures r.Ok? ==> exists k :: IsArgMin(r.value.scores, k) && r.value.neg[0] == Min(k, ctxL - 1)
    ensures r.Ok? && ctxL >= 1 ==> 0 <= r.value.pos[0] < ctxL && 0 <= r.value.neg[0] < ctxL
  {
    if !HasFirstColumn(labels) {
      return Err(IndexError);
    }
    var agg := FirstColumn(labels);
    var kp := ArgSortLast(agg);
    var kn := ArgSortFirst(agg);
    r := Ok(ClipLabels([Min(kp, ctxL - 1)], [Min(kn, ctxL - 1)], agg));
  }
}
