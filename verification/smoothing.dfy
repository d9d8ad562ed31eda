/** The 7-tap weighted smoothing filter of `smoothData` (util.cpp).
    Samples are reals: the division by 15 is exact here, where the source
    divides doubles. Reading the samples from a file and writing each output
    value to a file are left out; the values the source writes, in the order
    it writes them, are the method's result. */
module Smoothing {

  /** The filter's weights, from the oldest sample of the window to the newest. */
  const Weights: seq<real> := [1.0, 2.0, 3.0, 3.0, 3.0, 2.0, 1.0]

  /** The smoothed value written for interior position `i`: the seven
      samples centred on `i`, weighted 1-2-3-3-3-2-1, divided by 15. */
  function Smooth7(d: seq<real>, i: int): real
    requires 3 <= i && i + 3 < |d|
  {
    (d[i-3] + 2.0 * d[i-2] + 3.0 * d[i-1] + 3.0 * d[i] + 3.0 * d[i+1] + 2.0 * d[i+2] + d[i+3]) / 15.0
  }

  function Sum(w: seq<real>): real
  {
    if w == [] then 0.0 else w[0] + Sum(w[1..])
  }

  /** The weighted sum of `x` under the weights `w`. */
  function Dot(w: seq<real>, x: seq<real>): real
    requires |w| == |x|
  {
    if w == [] then 0.0 else w[0] * x[0] + Dot(w[1..], x[1..])
  }

  /** The weights add up to the divisor 15, so the filter is a weighted mean. */
  lemma WeightsSumTo15()
    ensures Sum(Weights) == 15.0
  {
  }

  /** The formula written out in the source is the weighted mean, under
      `Weights`, of the seven-sample window `d[i-3..i+4]`. */
  lemma {:induction false} Smooth7IsWeightedMean(d: seq<real>, i: int)
    requires 3 <= i && i + 3 < |d|
    ensures Smooth7(d, i) == Dot(Weights, d[i-3..i+4]) / Sum(Weights)
  {
    WeightsSumTo15();
    var x := d[i-3..i+4];
    var w := Weights;
    assert Dot(w[6..], x[6..]) == d[i+3] by {
      assert w[6..][1..] == [] && x[6..][1..] == [];
    }
    assert Dot(w[5..], x[5..]) == 2.0 * d[i+2] + d[i+3] by {
      assert w[5..][1..] == w[6..] && x[5..][1..] == x[6..];
    }
    assert Dot(w[4..], x[4..]) == 3.0 * d[i+1] + 2.0 * d[i+2] + d[i+3] by {
      assert w[4..][1..] == w[5..] && x[4..][1..] == x[5..];
    }
    assert Dot(w[3..], x[3..]) == 3.0 * d[i] + 3.0 * d[i+1] + 2.0 * d[i+2] + d[i+3] by {
      assert w[3..][1..] == w[4..] && x[3..][1..] == x[4..];
    }
    assert Dot(w[2..], x[2..]) == 3.0 * d[i-1] + 3.0 * d[i] + 3.0 * d[i+1] + 2.0 * d[i+2] + d[i+3] by {
      assert w[2..][1..] == w[3..] && x[2..][1..] == x[3..];
    }
    assert Dot(w[1..], x[1..]) == 2.0 * d[i-2] + 3.0 * d[i-1] + 3.0 * d[i] + 3.0 * d[i+1] + 2.0 * d[i+2] + d[i+3] by {
      assert w[1..][1..] == w[2..] && x[1..][1..] == x[2..];
    }
  }

  /** With non-negative weights, a weighted sum of values in `[lo, hi]`
      lies between `lo` and `hi` times the total weight. */
  lemma {:induction false} DotBounds(w: seq<real>, x: seq<real>, lo: real, hi: real)
    requires |w| == |x|
    requires forall k :: 0 <= k < |w| ==> w[k] >= 0.0 && lo <= x[k] <= hi
    ensures lo * Sum(w) <= Dot(w, x) <= hi * Sum(w)
  {
    if w != [] {
      DotBounds(w[1..], x[1..], lo, hi);
      assert w[0] * (x[0] - lo) >= 0.0;
      assert w[0] * (hi - x[0]) >= 0.0;
    }
  }

  /** A smoothed interior value never leaves the range of the seven samples
      it is computed from: the filter does not overshoot. */
  lemma WindowBounds(d: seq<real>, i: int, lo: real, hi: real)
    requires 3 <= i && i + 3 < |d|
    requires forall k :: i - 3 <= k <= i + 3 ==> lo <= d[k] <= hi
    ensures lo <= Smooth7(d, i) <= hi
  {
    Smooth7IsWeightedMean(d, i);
    WeightsSumTo15();
    DotBounds(Weights, d[i-3..i+4], lo, hi);
  }

  /** An interior position whose seven-sample window is constant `c` is
      smoothed to exactly `c`. */
  lemma ConstantWindow(d: seq<real>, i: int, c: real)
    requires 3 <= i && i + 3 < |d|
    requires forall k :: i - 3 <= k <= i + 3 ==> d[k] == c
    ensures Smooth7(d, i) == c
  {
    WindowBounds(d, i, c, c);
  }

  /** The values `smoothData` writes, in order. The first three and the last
      three are the negated input samples; each interior position `i` in
      `[3, n-3)` is `Smooth7(data, i)`. Fewer than three samples make the
      first loop read past the end, hence the precondition. With three to
      five samples the first and last loops overlap and six values are
      written, more than there are samples. */
  method SmoothData(data: seq<real>) returns (out: seq<real>)
    requires |data| >= 3
    ensures |out| == if |data| >= 6 then |data| else 6
    ensures forall k :: 0 <= k < 3 ==> out[k] == -data[k]
    ensures forall j :: |out| - 3 <= j < |out| ==> out[j] == -data[j - |out| + |data|]
    ensures forall i :: 3 <= i < |data| - 3 ==> out[i] == Smooth7(data, i)
  {
    var n := |data|;
    out := [];
    for i := 0 to 3
      invariant |out| == i
      invariant forall k :: 0 <= k < i ==> out[k] == -data[k]
    {
      out := out + [-data[i]];
    }
    var i := 3;
    while i < n - 3
      invariant 3 <= i && (n >= 6 ==> i <= n - 3)
      invariant n < 6 ==> i == 3
      invariant |out| == i
      invariant forall k :: 0 <= k < 3 ==> out[k] == -data[k]
      invariant forall k :: 3 <= k < i ==> out[k] == Smooth7(data, k)
    {
      out := out + [Smooth7(data, i)];
      i := i + 1;
    }
    ghost var head := out;
    for i := n - 3 to n
      invariant |out| == |head| + i - (n - 3)
      invariant out[..|head|] == head
      invariant forall k :: n - 3 <= k < i ==> out[|head| + k - (n - 3)] == -data[k]
    {
      out := out + [-data[i]];
    }
  }
}
