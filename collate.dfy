/** Batching: `cg_detr_start_end_collate` groups the examples' model inputs
    key by key, and `cg_detr_prepare_batch_inputs` picks the training targets
    out of a batch. Tensors, padding and device transfer are abstract: a
    batched field records the per-example values it was built from, and how. */
module Collate {
  import opened Results

  /** One dataset item: its annotation record and its model inputs by name. */
  datatype Example<M, V> = Example(meta: M, modelInputs: map<string, V>)

  /** How one key of the batch is put together. */
  datatype Batched<V> =
    | SpanDicts(items: seq<V>)        // a list of `dict(spans=...)`, one per example
    | LongStack(items: seq<V>)        // `torch.LongTensor` of the per-example lists
    | PaddedNoMask(items: seq<V>)     // `pad_sequences_1d`, padded data only
    | PlainList(items: seq<V>)        // the per-example values as a list
    | PaddedWithMask(items: seq<V>)   // `pad_sequences_1d`, (padded data, mask)

  /** The per-key special cases of `cg_detr_start_end_collate`. */
  function Dispatch<V>(k: string, col: seq<V>): (b: Batched<V>)
    ensures b.items == col
    ensures b.SpanDicts? <==> k == "span_labels"
    ensures b.LongStack? <==> k == "saliency_pos_labels" || k == "saliency_neg_labels"
    ensures b.PaddedNoMask? <==> k == "saliency_all_labels"
    ensures b.PlainList? <==> k == "qid" || k == "vid"
  {
    if k == "span_labels" then SpanDicts(col)
    else if k == "saliency_pos_labels" || k == "saliency_neg_labels" then LongStack(col)
    else if k == "saliency_all_labels" then PaddedNoMask(col)
    else if k == "qid" || k == "vid" then PlainList(col)
    else PaddedWithMask(col)
  }

  /** `[e["model_inputs"][k] for e in batch]`, which raises KeyError when an
      example lacks `k`. */
  function TryColumn<M, V>(batch: seq<Example<M, V>>, k: string): (r: Result<seq<V>>)
    ensures r.Ok? <==> forall i :: 0 <= i < |batch| ==> k in batch[i].modelInputs
    ensures r.Err? ==> r.error == KeyError(k)
    ensures r.Ok? ==> |r.value| == |batch| &&
                      forall i :: 0 <= i < |batch| ==> r.value[i] == batch[i].modelInputs[k]
  {
    if batch == [] then Ok([])
    else if k !in batch[0].modelInputs then Err(KeyError(k))
    else
      match TryColumn(batch[1..], k)
      case Err(e) => Err(e)
      case Ok(rest) => Ok([batch[0].modelInputs[k]] + rest)
  }

  /** Every example has every model input the first one has. */
  predicate SameKeys<M, V>(batch: seq<Example<M, V>>)
    requires |batch| > 0
  {
    forall i :: 0 <= i < |batch| ==> batch[0].modelInputs.Keys <= batch[i].modelInputs.Keys
  }

  /** `cg_detr_start_end_collate`: the metas in batch order, and one batched
      entry for every model input of the first example, built by `Dispatch`
      from that input's values across the batch in batch order. An empty
      batch has no `batch[0]` and raises IndexError. A map has no insertion
      order, so the keys are visited in any order: a successful result does
      not depend on it, but a KeyError names some input of the first example
      that another example lacks, not necessarily the first in dict order. */
  method Collate<M, V>(batch: seq<Example<M, V>>)
    returns (metas: seq<M>, r: Result<map<string, Batched<V>>>)
    ensures |metas| == |batch| && forall i :: 0 <= i < |batch| ==> metas[i] == batch[i].meta
    ensures r.Ok? <==> |batch| > 0 && SameKeys(batch)
    ensures r.Err? && |batch| == 0 ==> r.error == IndexError
    ensures r.Err? && |batch| > 0 ==> r.error.KeyError? && r.error.key in batch[0].modelInputs
    ensures r.Err? && |batch| > 0 ==>
              exists i :: 0 <= i < |batch| && r.error.key !in batch[i].modelInputs
    ensures r.Ok? ==> r.value.Keys == batch[0].modelInputs.Keys
    ensures r.Ok? ==> forall k :: k in r.value ==>
              TryColumn(batch, k).Ok? && r.value[k] == Dispatch(k, TryColumn(batch, k).value)
  {
    metas := seq(|batch|, i requires 0 <= i < |batch| => batch[i].meta);
    if |batch| == 0 {
      return metas, Err(IndexError);
    }
    var keys := batch[0].modelInputs.Keys;
    var remaining := keys;
    var out: map<string, Batched<V>> := map[];
    while remaining != {}
      invariant remaining <= keys
      invariant out.Keys == keys - remaining
      invariant forall k :: k in out ==>
                  TryColumn(batch, k).Ok? && out[k] == Dispatch(k, TryColumn(batch, k).value)
      decreases remaining
    {
      var k :| k in remaining;
      var col := TryColumn(batch, k);
      if col.Err? {
        var i :| 0 <= i < |batch| && k !in batch[i].modelInputs;
        assert !(batch[0].modelInputs.Keys <= batch[i].modelInputs.Keys);
        assert col.error == KeyError(k);
        r := Err(col.error);
        return;
      }
      out := out[k := Dispatch(k, col.value)];
      remaining := remaining - {k};
    }
    forall i | 0 <= i < |batch| ensures keys <= batch[i].modelInputs.Keys {
      forall k | k in keys ensures k in batch[i].modelInputs {
        assert k in out;
      }
    }
    r := Ok(out);
  }

  /** The label keys whose presence in a batch produces targets. */
  predicate HasLabels<V>(b: map<string, Batched<V>>) {
    "span_labels" in b || "saliency_pos_labels" in b || "saliency_all_labels" in b
  }

  /** The target keys a batch with these keys produces. */
  function TargetKeys(keys: set<string>): set<string> {
    (if "span_labels" in keys then {"span_labels"} else {})
    + (if "saliency_pos_labels" in keys then {"saliency_pos_labels", "saliency_neg_labels"} else {})
    + (if "saliency_all_labels" in keys then {"saliency_all_labels", "relevant_clips"} else {})
  }

  /** The targets of `cg_detr_prepare_batch_inputs`: the span
      labels, the positive and negative labels, and the score array twice
      (also as `relevant_clips`), for the keys present; `None` when there is
      none. Positive labels without negative ones raise KeyError. */
  function PrepareTargets<V>(b: map<string, Batched<V>>): (r: Result<Option<map<string, Batched<V>>>>)
    ensures r.Err? <==> "saliency_pos_labels" in b && "saliency_neg_labels" !in b
    ensures r.Err? ==> r.error == KeyError("saliency_neg_labels")
    ensures r.Ok? ==> (r.value.None? <==> !HasLabels(b))
    ensures r.Ok? && r.value.Some? ==>
              var t := r.value.value;
              && t.Keys == TargetKeys(b.Keys)
              && (forall k :: k in t && k != "relevant_clips" ==> k in b && t[k] == b[k])
              && ("relevant_clips" in t ==> t["relevant_clips"] == b["saliency_all_labels"])
  {
    if "saliency_pos_labels" in b && "saliency_neg_labels" !in b then
      Err(KeyError("saliency_neg_labels"))
    else
      var t1 := if "span_labels" in b then map["span_labels" := b["span_labels"]] else map[];
      var t2 := if "saliency_pos_labels" in b
                then t1["saliency_pos_labels" := b["saliency_pos_labels"]]
                       ["saliency_neg_labels" := b["saliency_neg_labels"]]
                else t1;
      var t3 := if "saliency_all_labels" in b
                then t2["saliency_all_labels" := b["saliency_all_labels"]]
                       ["relevant_clips" := b["saliency_all_labels"]]
                else t2;
      assert HasLabels(b) ==>
        "span_labels" in t3 || "saliency_pos_labels" in t3 || "saliency_all_labels" in t3;
      if t3 == map[] then Ok(None) else Ok(Some(t3))
  }
}
