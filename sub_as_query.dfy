/** Saliency labels for datasets that annotate one window per query
    (Charades-STA, TACoS, ActivityNet Captions). */
module SubAsQuery {
  import opened Results
  import opened PyOps
  import opened Annotations
  import opened Sampling

  /** The ground-truth window as an inclusive clip range: a video of
      `duration` seconds is cut into `ctxL` clips of equal length. Division by
      zero (no clips, or a zero duration) raises ZeroDivisionError. */
  function GtClipRange(w: Window, duration: real, ctxL: nat): (r: Result<ClipSpan>)
    ensures r.Err? <==> ctxL == 0 || duration == 0.0
    ensures r.Err? ==> r.error == ZeroDivisionError
    ensures r.Ok? ==> 0 <= r.value.ed <= ctxL - 1 && r.value.st <= r.value.ed
    ensures r.Ok? && w.start >= 0.0 && duration > 0.0 ==> 0 <= r.value.st
  {
    if ctxL == 0 then Err(ZeroDivisionError)
    else
      var clipLen := duration / ctxL as real;
      if clipLen == 0.0 then Err(ZeroDivisionError)
      else
        var st := Trunc(w.start / clipLen);
        var ed := Max(0, Min(Trunc(w.end / clipLen), ctxL) - 1);
        Ok(ClipSpan(if st > ed then ed else st, ed))
  }

  /** The start index is the clip that contains the window's start, unless
      that clip lies past the end index, in which case it is pulled back to it. */
  lemma GtClipRangeStartClip(w: Window, duration: real, ctxL: nat)
    requires ctxL >= 1 && duration > 0.0 && w.start >= 0.0
    ensures var c := GtClipRange(w, duration, ctxL).value;
            var clipLen := duration / ctxL as real;
            c.st == c.ed || (c.st as real * clipLen <= w.start < (c.st + 1) as real * clipLen)
  {
    var clipLen := duration / ctxL as real;
    assert clipLen > 0.0;
    TruncDivBounds(w.start, clipLen);
  }

  /** The window [26, 36] of a 150-second video of 75 clips is clips 13 to 17. */
  lemma GtClipRangeExample()
    ensures GtClipRange(Window(26.0, 36.0), 150.0, 75) == Ok(ClipSpan(13, 17))
  {
    assert 150.0 / 75 as real == 2.0;
    assert 26.0 / 2.0 == 13.0;
    assert 36.0 / 2.0 == 18.0;
  }

  /** Clips outside the ground-truth range. */
  predicate InNegPool(c: ClipSpan, ctxL: int, x: int) {
    0 <= x < c.st || c.ed < x < ctxL
  }

  /** With a range of several clips the positives are `maxN` different clips
      of it; a one-clip range gives that clip twice. */
  predicate PositivesOk(c: ClipSpan, maxN: int, pos: seq<int>) {
    if c.st != c.ed then
      |pos| == maxN && Distinct(pos) && forall i :: 0 <= i < |pos| ==> c.st <= pos[i] <= c.ed
    else
      pos == [c.st, c.st]
  }

  /** The negatives are `maxN` different clips outside the range when there
      are enough of them, and a copy of the positives otherwise. */
  predicate NegativesOk(c: ClipSpan, ctxL: int, maxN: int, pos: seq<int>, neg: seq<int>) {
    if 0 <= maxN <= c.st + (ctxL - 1 - c.ed) then
      |neg| == maxN && Distinct(neg) && forall i :: 0 <= i < |neg| ==> InNegPool(c, ctxL, neg[i])
    else
      neg == pos
  }

  /** One score per clip: 1 inside the range, 0 outside. */
  predicate ScoresOk(c: ClipSpan, ctxL: int, scores: seq<int>) {
    |scores| == ctxL && forall i :: 0 <= i < ctxL ==> scores[i] == if c.st <= i <= c.ed then 1 else 0
  }

  lemma NegPoolShape(c: ClipSpan, ctxL: int)
    requires 0 <= c.st <= c.ed < ctxL
    ensures var pool := Range(0, c.st) + Range(c.ed + 1, ctxL);
            |pool| == c.st + (ctxL - 1 - c.ed) && Distinct(pool) &&
            forall x :: x in pool ==> InNegPool(c, ctxL, x)
  {
    var a, b := Range(0, c.st), Range(c.ed + 1, ctxL);
    var pool := a + b;
    forall i, j | 0 <= i < j < |pool| ensures pool[i] != pool[j] {
      if j < |a| {
      } else if i < |a| {
        assert pool[i] == i && pool[j] == b[j - |a|];
      } else {
        assert pool[i] == b[i - |a|] && pool[j] == b[j - |a|];
      }
    }
    forall x | x in pool ensures InNegPool(c, ctxL, x) {
      var i :| 0 <= i < |pool| && pool[i] == x;
      if i >= |a| {
        assert pool[i] == b[i - |a|];
      }
    }
  }

  /** `get_saliency_labels_sub_as_query`: positives sampled inside the
      ground-truth clip range, negatives outside it, and a 0/1 score per clip.
      A too-small range for the positives raises ValueError; a too-small pool
      for the negatives falls back to the positives. */
  method SaliencyLabelsSubAsQuery(w: Window, duration: real, ctxL: nat, maxN: int)
    returns (r: Result<ClipLabels>)
    requires w.start >= 0.0 && duration >= 0.0
    ensures GtClipRange(w, duration, ctxL).Err? ==> r == Err(ZeroDivisionError)
    ensures GtClipRange(w, duration, ctxL).Ok? ==>
              var c := GtClipRange(w, duration, ctxL).value;
              && 0 <= c.st <= c.ed <= ctxL - 1
              && (r.Err? <==> c.st != c.ed && !(0 <= maxN <= c.ed - c.st + 1))
              && (r.Err? ==> r.error == ValueError)
              && (r.Ok? ==> PositivesOk(c, maxN, r.value.pos)
                            && NegativesOk(c, ctxL, maxN, r.value.pos, r.value.neg)
                            && ScoresOk(c, ctxL, r.value.scores))
  {
    var c :- GtClipRange(w, duration, ctxL);
    var pos: seq<int>;
    if c.st != c.ed {
      var range := Range(c.st, c.ed + 1);
      var s := Sample(range, maxN);
      if s.Err? {
        return Err(ValueError);
      }
      SampleOfDistinct(s.value, range, maxN);
      pos := s.value;
    } else {
      pos := [c.st, c.st];
    }
    var pool := Range(0, c.st) + Range(c.ed + 1, ctxL);
    NegPoolShape(c, ctxL);
    var n := Sample(pool, maxN);
    var neg := pos;
    if n.Ok? {
      SampleOfDistinct(n.value, pool, maxN);
      neg := n.value;
    }
    var a := new int[ctxL](_ => 0);
    forall i | c.st <= i <= c.ed {
      a[i] := 1;
    }
    r := Ok(ClipLabels(pos, neg, a[..]));
  }
}
