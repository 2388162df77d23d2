# CG-DETR training labels, modelled in Dafny

`CGDETR_StartEndDataset` in `training/cg_detr_dataset.py` serves video-moment-retrieval and
highlight-detection examples. Each example has a query, a video cut into `ctx_l` clips, and
labels built from the annotation record. This project models how those labels are built:

- **span labels**: the ground-truth windows in seconds, capped at `max_windows` and, for the
  `"ce"` loss, turned into inclusive clip-index ranges;
- **saliency labels**: positive clips and negative clips, and for every constructor but
  `get_saliency_labels` also one score per clip. There are three kinds of annotation:
  - one ground-truth window (Charades-STA, TACoS, ActivityNet Captions);
  - per-annotator scores of the relevant clips (QVHighlights: `get_saliency_labels` and
    `get_saliency_labels_all`);
  - per-clip scores of every clip (TVSum, YouTube Highlights);
- the dataset's set-up: the `-1` length sentinels and the per-domain filter;
- batching: the per-key dispatch of `cg_detr_start_end_collate` and the targets of
  `cg_detr_prepare_batch_inputs`.

How the Python is represented:

- Seconds are exact rationals (`real`). Python's `int()` is truncation toward zero
  (`PyOps.Trunc`).
- `random.sample`, `random.shuffle` and the tie order of `np.argsort` are free choices (`:|`).
  A contract holds for every choice. A sample is any `k` elements taken from `k` distinct
  positions of the pool. A shuffle is any permutation. The first and last entries of an
  argsort are any index with the minimal or maximal score.
- The Python exceptions modelled are `Err` values of `Results.Result`: ZeroDivisionError,
  ValueError, IndexError, KeyError, NotImplementedError, NumPy's AxisError and the
  AssertionError of the query feature check. Others the code can raise, such as NumPy's
  index and broadcast errors on out-of-range clip ids or the ValueError of ragged rows, are
  excluded by preconditions or by the data model; "## Left out" names each.
- The fields the label methods read from `self` (`clip_len`, `max_windows`, `span_loss_type`)
  are parameters.

Modules, one per concern of the file: `Results`, `PyOps`, `Sampling`, `Extremes`,
`Annotations`, `SubAsQuery`, `QvhSaliency`, `HighlightIndices`, `SpanLabels`, `Dataset`,
`Collate`.

The docstring of `get_span_labels` (training/cg_detr_dataset.py:353) says each row is
[center, width] normalised by the video length. In `"ce"` mode the code returns raw inclusive
clip indices, and the model follows the code.

## Model

| member | source | states |
|---|---|---|
| `PyOps.Trunc` | training/cg_detr_dataset.py:194-195 | `int(x)` rounds toward zero: for x >= 0 the result is the greatest integer not above x; for x < 0 it is the least integer not below x |
| `PyOps.TruncDivBounds` | training/cg_detr_dataset.py:363 | for t >= 0 and a positive step, `int(t / step)` counts the whole steps before t: `n*step <= t < (n+1)*step` |
| `PyOps.Range` | training/cg_detr_dataset.py:207 | `range(lo, hi)` holds `hi - lo` consecutive integers from `lo`, or nothing when `lo >= hi` |
| `PyOps.RowSumBounds` | training/cg_detr_dataset.py:301 | `np.sum` of a score row whose entries all lie in `[lo, hi]` lies in `[len * lo, len * hi]` |
| `PyOps.RowSums` | training/cg_detr_dataset.py:231-232 | `np.sum(scores, 1)` has one entry per row, the sum of that row, in row order |
| `PyOps.Take` | training/cg_detr_dataset.py:357 | `s[:n]` is a prefix of `s`: `min(n, len)` elements for n >= 0, `len + n` (at least 0) for negative n |
| `Sampling.Sample` | training/cg_detr_dataset.py:200 | `random.sample(pool, k)` raises ValueError exactly when k is negative or larger than the pool; otherwise it returns k elements from distinct positions of the pool |
| `Sampling.Shuffle` | training/cg_detr_dataset.py:356 | `random.shuffle` yields a permutation: same length, same multiset of elements |
| `Sampling.SampleOfDistinct` | training/cg_detr_dataset.py:199-211 | a sample of a pool without repetitions has no repetitions, and each element comes from the pool |
| `Extremes.ArgMaxExists` | training/cg_detr_dataset.py:268 | every non-empty score list has an index of maximal score, so the last argsort entry always exists |
| `Extremes.ArgMinExists` | training/cg_detr_dataset.py:268 | every non-empty score list has an index of minimal score |
| `Extremes.ArgSortLast` | training/cg_detr_dataset.py:282 | `argsort(agg)[-1]` is an index whose score is at least every other score |
| `Extremes.ArgSortFirst` | training/cg_detr_dataset.py:283 | `argsort(agg)[0]` is an index whose score is at most every other score |
| `SubAsQuery.GtClipRange` | training/cg_detr_dataset.py:192-197 | ZeroDivisionError exactly when there are no clips or the duration is 0; otherwise `gt_st <= gt_ed`, `0 <= gt_ed <= ctx_l - 1`, and `gt_st >= 0` for a non-negative start and positive duration |
| `SubAsQuery.GtClipRangeStartClip` | training/cg_detr_dataset.py:193-197 | `gt_st` is the clip of length `duration / ctx_l` that contains the window's start, unless it was pulled back to `gt_ed` |
| `SubAsQuery.GtClipRangeExample` | training/cg_detr_dataset.py:57-62 | window [26, 36] of a 150-second, 75-clip video covers clips 13 to 17, as the record in the class docstring lists |
| `SubAsQuery.NegPoolShape` | training/cg_detr_dataset.py:207 | the negative pool has `gt_st + (ctx_l - 1 - gt_ed)` clips, all different, all outside `[gt_st, gt_ed]` |
| `SubAsQuery.SaliencyLabelsSubAsQuery` | training/cg_detr_dataset.py:192-217 | `0 <= gt_st <= gt_ed <= ctx_l - 1`. Positives: `max_n` distinct clips of the range, `[gt_st, gt_st]` for a one-clip range, ValueError if the range is too small. Negatives: `max_n` distinct clips outside the range, or a copy of the positives when the pool is too small. Scores: `ctx_l` values, 1 exactly on `gt_st..gt_ed`, 0 elsewhere |
| `QvhSaliency.EasyNegPool` | training/cg_detr_dataset.py:287 | the easy-negative pool is exactly the clips in `[0, ctx_l)` that are not relevant |
| `QvhSaliency.HardAndEasy` | training/cg_detr_dataset.py:282-297 | hard positive: a relevant id of maximal summed score, cut to `ctx_l - 1`; hard negative: one of minimal summed score, cut the same way. Both lie in `[0, ctx_l)` for non-negative ids. Easy positive: a relevant id. Easy negative: a clip that is not relevant. When no clip is left over, copies of the hard ones. Outputs are hard followed by easy |
| `QvhSaliency.SaliencyLabels` | training/cg_detr_dataset.py:220-253 | AxisError exactly when there is no relevant clip; otherwise the positive and negative lists of `HardAndEasy`, from the row sums of the annotators' scores |
| `QvhSaliency.LastIndexOf` | training/cg_detr_dataset.py:272-277 | the index of the last entry naming a clip: it names the clip and no later entry does |
| `QvhSaliency.ScoreAtLastWrite` | training/cg_detr_dataset.py:272-277 | a clip named by an entry that no later entry repeats holds that entry's summed score |
| `QvhSaliency.ScoreArray` | training/cg_detr_dataset.py:271-277 | the array has `ctx_l` entries, plus one exactly when some id equals `ctx_l`; each named clip holds the summed score of the last entry naming it; every other clip holds 0 |
| `QvhSaliency.SaliencyLabelsAll` | training/cg_detr_dataset.py:255-297 | AxisError exactly when there is no relevant clip; otherwise the hard and easy lists of `HardAndEasy`, and the score array of `ScoreArray`, for the row sums of the scores |
| `HighlightIndices.TvSumScores` | training/cg_detr_dataset.py:301 | one score per clip for the first `min(len(labels), ctx_l)` clips: the sum of the annotators' scores counted from 0 |
| `HighlightIndices.TvSumScoresBounds` | training/cg_detr_dataset.py:301 | with annotator scores from 1 to 5, each aggregate, counted from 0, lies between 0 and 4 per annotator |
| `HighlightIndices.SaliencyLabelsTvSum` | training/cg_detr_dataset.py:299-321 | IndexError exactly for an empty label array; otherwise the scores are `TvSumScores`, no clips gives empty lists, and otherwise one positive of maximal score and one negative of minimal score, both already below `ctx_l`, so the clamp changes nothing |
| `HighlightIndices.FirstColumn` | training/cg_detr_dataset.py:326 | the score of clip i is column 0 of row i |
| `HighlightIndices.SaliencyLabelsYoutube` | training/cg_detr_dataset.py:323-347 | for rectangular labels, IndexError exactly when there is no row or some row has no column 0; otherwise the scores are column 0, and one positive of maximal and one negative of minimal score, each cut to `ctx_l - 1`, so both are in `[0, ctx_l)` |
| `SpanLabels.CeSpan` | training/cg_detr_dataset.py:363 | one `"ce"` row: the end index never exceeds `ctx_l - 1`, and is either that cap or one before the clip of the window's end |
| `SpanLabels.CeSpans` | training/cg_detr_dataset.py:362-364 | one inclusive clip range per kept window, in window order, each as `CeSpan` and each ending at most at `ctx_l - 1` |
| `SpanLabels.CeSpanClips` | training/cg_detr_dataset.py:362-364 | in `"ce"` mode the start index is the clip containing the window's start; the end index is at most `ctx_l - 1` and, below that cap, is one before the clip containing the window's end |
| `SpanLabels.CeSpansDocExample` | training/cg_detr_dataset.py:351 | `[[26, 36]]` with `clip_len = 2` gives `[[13, 17]]` |
| `SpanLabels.SelectionFromInput` | training/cg_detr_dataset.py:355-357 | the kept windows number `SelectionSize(len, max_windows)`, at most `max_windows` for a non-negative cap, and each is one of the input windows |
| `SpanLabels.GetSpanLabels` | training/cg_detr_dataset.py:349-367 | NotImplementedError exactly for a loss type other than `"l1"` and `"ce"`; ZeroDivisionError for `"ce"` with a zero clip length and a window left; `"l1"` keeps a selection of the windows; `"ce"` maps a selection window by window, every end index at most `ctx_l - 1` |
| `Dataset.VideoLimit` | training/cg_detr_dataset.py:80-81 | the sentinel `-1` becomes 100000000 and never survives; other limits are kept |
| `Dataset.QueryLimit` | training/cg_detr_dataset.py:82-83 | the sentinel `-1` becomes 100 and never survives; other limits are kept |
| `Dataset.FilteredMembers` | training/cg_detr_dataset.py:104-109 | a record is kept exactly when it is in the data and belongs to the chosen domain |
| `Dataset.FilteredIdempotent` | training/cg_detr_dataset.py:105-109 | filtering never adds records, and filtering a filtered list changes nothing |
| `Dataset.FilterByDomain` | training/cg_detr_dataset.py:105-109 | the loop appends exactly the records of the domain, in order |
| `Dataset.StartEndDataset.constructor` | training/cg_detr_dataset.py:66-109 | past the query feature check: the limits with sentinels replaced; TVSum and YouTube Highlights keep only the chosen domain's records, all of that domain and no more than were loaded; every other dataset keeps all records |
| `Dataset.NewStartEndDataset` | training/cg_detr_dataset.py:54-109 | AssertionError exactly when `q_feat_type` is not `"pooler_output"` or `"last_hidden_state"`; otherwise a new dataset set up as by the constructor |
| `Dataset.StartEndDataset.Length` | training/cg_detr_dataset.py:125-126 | `len(dataset)` is the number of records set-up kept, which the constructor bounds by the loaded count |
| `Collate.Dispatch` | training/cg_detr_dataset.py:427-444 | `span_labels` becomes a per-example list of span dicts. `saliency_pos_labels` and `saliency_neg_labels` are stacked as long tensors. `saliency_all_labels` is padded and its mask dropped. `qid` and `vid` stay plain lists. Every other key is padded with its mask kept |
| `Collate.TryColumn` | training/cg_detr_dataset.py:438 | KeyError exactly when some example lacks the key; otherwise the key's values, one per example, in batch order |
| `Collate.Collate` | training/cg_detr_dataset.py:421-445 | metas in batch order. IndexError for an empty batch. Otherwise KeyError exactly when some example lacks an input the first one has, naming an input of the first example that some example lacks. Otherwise the key set equals the first example's, and each entry is `Dispatch` applied to that key's per-example values in batch order |
| `Collate.PrepareTargets` | training/cg_detr_dataset.py:457-471 | KeyError when positive labels come without negative ones. Otherwise targets are `None` exactly when none of `span_labels`, `saliency_pos_labels`, `saliency_all_labels` is present. Otherwise the target keys follow the present label keys, and `relevant_clips` repeats `saliency_all_labels` |

## Left out

- Floating-point work, all of it tensor arithmetic:
  - the `"l1"` normalisation to (centre, width), whose helper `span_xx_to_cxw` is not part of
    this model (the model keeps the selected windows);
  - the temporal endpoint features (`tef`);
  - `l2_normalize_np_array`.
- Float rounding: `duration / ctx_l` and the divisions by `clip_len` are exact here, so a
  boundary that Python's floats round differently is not captured. Nor is the float32 round
  trip of `torch.Tensor([...]).long()` in `"ce"` mode, which keeps clip indices exact only
  below 2^24.
- Collate.Collate: a Dafny map has no insertion order, so the model's KeyError names some
  input of the first example that another example lacks, not necessarily the first such
  input in the dict's order, as the Python loop does.
- File and library I/O: `load_jsonl` (the loaded records are a constructor argument),
  `_get_query_feat_by_qid`, `_get_video_feat_by_vid`, the GloVe set-up and `get_query`.
- `__getitem__`: it assembles features read from disk. Its choice of label constructor by
  dataset name, including the NotImplementedError for an unknown name, is not modelled.
- `cg_detr_prepare_batch_inputs`: the model-input dictionary and every `.to(device)` transfer
  are left out (the device move is the identity here). So is the KeyError that a missing
  `query_feat`, `video_feat`, `vid` or `qid` would raise first.
- `pad_sequences_1d` is not part of this model. Padding is abstract. So is the equal-length
  requirement of `torch.LongTensor` on the stacked label lists.
- `random.shuffle` shuffles the caller's `relevant_windows` list in place. The later
  `meta["relevant_windows"][0]` therefore reads the shuffled order. The model returns the
  shuffle as a new value and does not capture this aliasing.
- The `add_easy_negative=True` branches of the TVSum and YouTube constructors use an undefined
  `rel_clip_ids`. They are dead under the default `False` and are not modelled.
- The `nlq` branch of the single-window constructor builds the same `[gt_st, gt_st]` as the
  other branch, so it is not modelled separately.
- Ragged score rows, which NumPy refuses, are not modelled.
- Annotation records keep only `qid`, `vid` and `domain`. A record without `domain` (a
  KeyError) is not modelled.
- `training/train.py` (the training loop) and `lighthouse/slowfast/model.py` (a checkpoint
  loader wrapper) are not part of this model.
- QvhSaliency.HardAndEasy: models only the default `max_n = 1`. A larger `max_n` takes the
  top and bottom `max_n` argsort entries, which would need a model of the whole sort order.
- QvhSaliency.SaliencyLabels: only the default `max_n = 1` is modelled, as for `HardAndEasy`. It
  requires one score row per relevant clip, as the annotation records give them; mismatched
  lengths are not modelled.
- QvhSaliency.SaliencyLabelsAll: only the default `max_n = 1` is modelled. It requires one score
  row per relevant clip, as `SaliencyLabels` does. The ids must lie in `[0, ctx_l]` with `ctx_l`
  at most once; otherwise NumPy raises an IndexError or, on the grown array, a broadcast
  error, and neither is modelled. Negative ids, which NumPy reads from the end of the array,
  are excluded by the same precondition.
- Dataset.StartEndDataset.constructor: requires a `q_feat_type` that passes the query feature
  check, because a constructor cannot fail here; `Dataset.NewStartEndDataset` models the
  AssertionError of a failing check.
- HighlightIndices.SaliencyLabelsTvSum: returns the unscaled aggregate instead of
  `agg / 80 * 12` (float scaling). It models only `max_n = 1` and `add_easy_negative = False`.
- HighlightIndices.SaliencyLabelsYoutube: models only `max_n = 1` and
  `add_easy_negative = False`.
- SubAsQuery.SaliencyLabelsSubAsQuery: requires a non-negative window start and duration. With
  a negative clip index, NumPy's slice would count from the end of the array, and that is not
  modelled.
