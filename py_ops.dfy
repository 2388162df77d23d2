/** The few Python and NumPy primitives the label constructors are built from,
    with their Python meaning spelled out. */
module PyOps {

  function Min(a: int, b: int): int { if a <= b then a else b }

  function Max(a: int, b: int): int { if a >= b then a else b }

  /** Python's `int(x)` on a number: truncation toward zero. */
  function Trunc(x: real): (r: int)
    ensures x >= 0.0 ==> r >= 0 && r as real <= x < r as real + 1.0
    ensures x < 0.0 ==> r <= 0 && r as real - 1.0 < x <= r as real
  {
    if x >= 0.0 then x.Floor else -((-x).Floor)
  }

  lemma MulLe(a: real, b: real, c: real)
    requires a <= b && c > 0.0
    ensures a * c <= b * c
  {
  }

  lemma MulLt(a: real, b: real, c: real)
    requires a < b && c > 0.0
    ensures a * c < b * c
  {
  }

  /** Dividing a non-negative number by a positive one and multiplying back. */
  lemma DivMul(t: real, cl: real)
    requires t >= 0.0 && cl > 0.0
    ensures t / cl >= 0.0 && (t / cl) * cl == t
  {
  }

  /** Scaling `n <= x < n + 1` by a positive `cl`. */
  lemma StepBounds(x: real, n: int, cl: real, t: real)
    requires n as real <= x < n as real + 1.0 && cl > 0.0 && x * cl == t
    ensures n as real * cl <= t < (n + 1) as real * cl
  {
    var a := n as real;
    var b := (n + 1) as real;
    assert b == a + 1.0;
    MulLe(a, x, cl);
    assert a * cl <= x * cl;
    MulLt(x, b, cl);
    assert x * cl < b * cl;
    assert a * cl <= t < b * cl;
  }

  /** `int(t / cl)` is the number of whole steps of length `cl` before `t`. */
  lemma TruncDivBounds(t: real, cl: real)
    requires t >= 0.0 && cl > 0.0
    ensures Trunc(t / cl) as real * cl <= t < (Trunc(t / cl) + 1) as real * cl
  {
    var x := t / cl;
    DivMul(t, cl);
    var n := Trunc(x);
    assert n as real <= x < n as real + 1.0;
    StepBounds(x, n, cl, t);
  }

  /** Python's `list(range(lo, hi))`. */
  function Range(lo: int, hi: int): (r: seq<int>)
    ensures |r| == if lo < hi then hi - lo else 0
    ensures forall i :: 0 <= i < |r| ==> r[i] == lo + i
  {
    if lo < hi then seq(hi - lo, i => lo + i) else []
  }

  /** Python's slice `s[:n]`, where a negative `n` counts from the end. */
  function Take<T>(s: seq<T>, n: int): (r: seq<T>)
    ensures |r| == if n >= 0 then Min(n, |s|) else Max(0, |s| + n)
    ensures r == s[..|r|]
  {
    if n >= 0 then s[..Min(n, |s|)] else s[..Max(0, |s| + n)]
  }

  /** `np.sum(row)` of one row of integer scores. */
  function RowSum(row: seq<int>): int {
    if row == [] then 0 else RowSum(row[..|row| - 1]) + row[|row| - 1]
  }

  /** A row of scores each within `[lo, hi]` sums to within `[|row| * lo, |row| * hi]`. */
  lemma {:induction false} RowSumBounds(row: seq<int>, lo: int, hi: int)
    requires forall i :: 0 <= i < |row| ==> lo <= row[i] <= hi
    ensures |row| * lo <= RowSum(row) <= |row| * hi
  {
    if row != [] {
      var init := row[..|row| - 1];
      RowSumBounds(init, lo, hi);
      assert |row| * lo == |init| * lo + lo;
      assert |row| * hi == |init| * hi + hi;
    }
  }

  /** `np.sum(scores, 1)`: the sum of every row. */
  function RowSums(scores: seq<seq<int>>): (r: seq<int>)
    ensures |r| == |scores|
    ensures forall i :: 0 <= i < |r| ==> r[i] == RowSum(scores[i])
  {
    seq(|scores|, i requires 0 <= i < |scores| => RowSum(scores[i]))
  }

  predicate Distinct<T(==)>(s: seq<T>) {
    forall i, j :: 0 <= i < j < |s| ==> s[i] != s[j]
  }
}
