/** Span labels: the ground-truth windows a query is trained against. */
module SpanLabels {
  import opened Results
  import opened PyOps
  import opened Annotations
  import opened Sampling

  /** The labels of the `"l1"` loss keep the chosen windows, to be normalised
      into (centre, width); those of the `"ce"` loss are inclusive clip ranges. */
  datatype Spans = CenterWidth(windows: seq<Window>) | ClipIndices(spans: seq<ClipSpan>)

  /** One window in `"ce"` mode: `[int(st / clip_len), min(int(ed / clip_len), ctx_l) - 1]`. */
  function CeSpan(w: Window, clipLen: real, ctxL: int): (c: ClipSpan)
    requires clipLen != 0.0
    ensures c.ed <= ctxL - 1
    ensures c.ed == ctxL - 1 || c.ed == Trunc(w.end / clipLen) - 1
  {
    ClipSpan(Trunc(w.start / clipLen), Min(Trunc(w.end / clipLen), ctxL) - 1)
  }

  function CeSpans(ws: seq<Window>, clipLen: real, ctxL: int): (r: seq<ClipSpan>)
    requires ws == [] || clipLen != 0.0
    ensures |r| == |ws|
    ensures forall i :: 0 <= i < |r| ==> r[i] == CeSpan(ws[i], clipLen, ctxL)
    ensures forall i :: 0 <= i < |r| ==> r[i].ed <= ctxL - 1
  {
    seq(|ws|, i requires 0 <= i < |ws| => CeSpan(ws[i], clipLen, ctxL))
  }

  /** The start index is the clip that contains the window's start; the end
      index is one before the clip that contains its end, and never past the
      last clip. */
  lemma CeSpanClips(w: Window, clipLen: real, ctxL: int)
    requires clipLen > 0.0 && w.start >= 0.0 && w.end >= 0.0
    ensures var c := CeSpan(w, clipLen, ctxL);
            && 0 <= c.st
            && c.st as real * clipLen <= w.start < (c.st + 1) as real * clipLen
            && c.ed <= ctxL - 1
            && (c.ed < ctxL - 1 ==> (c.ed + 1) as real * clipLen <= w.end < (c.ed + 2) as real * clipLen)
  {
    TruncDivBounds(w.start, clipLen);
    TruncDivBounds(w.end, clipLen);
  }

  /** The example of the source's doc comment: [[26, 36]] with clips of 2
      seconds is [[13, 17]]. */
  lemma CeSpansDocExample()
    ensures CeSpans([Window(26.0, 36.0)], 2.0, 75) == [ClipSpan(13, 17)]
  {
    assert 26.0 / 2.0 == 13.0;
    assert 36.0 / 2.0 == 18.0;
  }

  /** `sel` is a list of windows the capping step can produce: the input when
      it has at most `maxWindows` windows, and otherwise the first
      `maxWindows` (Python slice) of some shuffle of it. */
  ghost predicate IsSelection(windows: seq<Window>, maxWindows: int, sel: seq<Window>) {
    if |windows| > maxWindows then
      exists sh :: IsShuffle(sh, windows) && sel == Take(sh, maxWindows)
    else
      sel == windows
  }

  /** How many windows the capping step keeps out of `n`. */
  function SelectionSize(n: nat, maxWindows: int): nat {
    if n <= maxWindows then n
    else if maxWindows >= 0 then maxWindows
    else Max(0, n + maxWindows)
  }

  /** A selection has at most `maxWindows` windows (for a non-negative cap),
      and each of them is one of the input windows. */
  lemma SelectionFromInput(windows: seq<Window>, maxWindows: int, sel: seq<Window>)
    requires IsSelection(windows, maxWindows, sel)
    ensures |sel| == SelectionSize(|windows|, maxWindows) <= |windows|
    ensures maxWindows >= 0 ==> |sel| <= maxWindows
    ensures forall i :: 0 <= i < |sel| ==> sel[i] in windows
  {
    if |windows| > maxWindows {
      var sh :| IsShuffle(sh, windows) && sel == Take(sh, maxWindows);
      forall i | 0 <= i < |sel| ensures sel[i] in windows {
        assert sel[i] == sh[i];
        assert sh[i] in multiset(sh);
      }
    }
  }

  /** `get_span_labels`. A loss type other than `"l1"` and `"ce"` raises
      NotImplementedError; a zero clip length in `"ce"` mode raises
      ZeroDivisionError as soon as there is a window to divide. */
  method GetSpanLabels(windows: seq<Window>, ctxL: int, clipLen: real, maxWindows: int,
                       spanLossType: string)
    returns (r: Result<Spans>)
    ensures r.Err? <==> (spanLossType != "l1" && spanLossType != "ce") ||
                        (spanLossType == "ce" && clipLen == 0.0 && SelectionSize(|windows|, maxWindows) > 0)
    ensures r.Err? ==> r.error == (if spanLossType == "ce" then ZeroDivisionError else NotImplementedError)
    ensures r.Ok? && spanLossType == "l1" ==>
              r.value.CenterWidth? && IsSelection(windows, maxWindows, r.value.windows)
    ensures r.Ok? && spanLossType == "ce" ==>
              r.value.ClipIndices? &&
              exists sel :: IsSelection(windows, maxWindows, sel) && (sel == [] || clipLen != 0.0) &&
                            r.value.spans == CeSpans(sel, clipLen, ctxL)
    ensures r.Ok? && spanLossType == "ce" ==>
              forall i :: 0 <= i < |r.value.spans| ==> r.value.spans[i].ed <= ctxL - 1
  {
    var sel := windows;
    if |windows| > maxWindows {
      var sh := Shuffle(windows);
      sel := Take(sh, maxWindows);
    }
    assert IsSelection(windows, maxWindows, sel);
    SelectionFromInput(windows, maxWindows, sel);
    if spanLossType == "l1" {
      r := Ok(CenterWidth(sel));
    } else if spanLossType == "ce" {
      if clipLen == 0.0 && |sel| > 0 {
        r := Err(ZeroDivisionError);
      } else {
        r := Ok(ClipIndices(CeSpans(sel, clipLen, ctxL)));
      }
    } else {
      r := Err(NotImplementedError);
    }
  }
}
