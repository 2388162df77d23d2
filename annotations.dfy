/** The pieces of an annotation record the label constructors read. */
module Annotations {

  /** A ground-truth window `[start, end]` in seconds. */
  datatype Window = Window(start: real, end: real)

  /** An inclusive range of clip indices `[st, ed]`. */
  datatype ClipSpan = ClipSpan(st: int, ed: int)

  /** What the saliency label constructors with a score array return:
      positive clips, negative clips and one score per clip. */
  datatype ClipLabels = ClipLabels(pos: seq<int>, neg: seq<int>, scores: seq<int>)
}
