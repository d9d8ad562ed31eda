/** The start/end pulse detector of `detectPulses` (util.cpp). Samples and
    the voltage threshold are reals. Reading the samples from a file is left
    out; the indices the source writes to its output file, in order, are the
    method's result. */
module PulseDetection {

  /** The two-step rise at `i` strictly exceeds the threshold. */
  predicate Rises(d: seq<real>, t: real, i: int)
    requires 0 <= i && i + 2 < |d|
  {
    d[i+2] - d[i] > t
  }

  /** A pulse is open when the scan reaches `i`: the rise at the previous
      index exceeded the threshold. */
  predicate Open(d: seq<real>, t: real, i: int)
    requires 0 <= i && i + 2 <= |d|
  {
    i > 0 && Rises(d, t, i - 1)
  }

  /** The first index `r >= j` at which the non-decreasing run starting
      below `j` ends: either `r` is past the last sample or `d[r]` drops
      below `d[r-1]`. */
  function RunEnd(d: seq<real>, j: int): (r: int)
    requires 1 <= j <= |d|
    ensures j <= r <= |d|
    ensures r == |d| || d[r] < d[r-1]
    ensures forall k :: j <= k < r ==> d[k-1] <= d[k]
    decreases |d| - j
  {
    if j < |d| && d[j] >= d[j-1] then RunEnd(d, j + 1) else j
  }

  /** The end index written when a pulse closes at scan index `i`. */
  function EndAt(d: seq<real>, i: int): int
    requires 0 <= i && i + 2 <= |d|
  {
    RunEnd(d, i + 2) - 2
  }

  /** What the scan writes at index `i`: a start on a rising edge of
      `Rises`, an end on a falling edge, nothing otherwise. */
  function Step(d: seq<real>, t: real, i: int): seq<int>
    requires 0 <= i && i + 2 < |d|
  {
    if Rises(d, t, i) && !Open(d, t, i) then [i]
    else if !Rises(d, t, i) && Open(d, t, i) then [EndAt(d, i)]
    else []
  }

  /** Everything written by the scan of the indices below `m`. */
  function Emitted(d: seq<real>, t: real, m: int): seq<int>
    requires 0 <= m && m + 2 <= |d|
    decreases m
  {
    if m == 0 then [] else Emitted(d, t, m - 1) + Step(d, t, m - 1)
  }

  /** Everything `detectPulses` writes for samples `d` and threshold `t`. */
  function Pulses(d: seq<real>, t: real): seq<int>
    requires |d| >= 2
  {
    Emitted(d, t, |d| - 2)
  }

  /** The detection loop of `detectPulses`: `inPulse` toggles inside the
      scan, and a closing pulse walks `j` forward over the non-decreasing
      run. Fewer than two samples make the unsigned loop bound wrap around,
      hence the precondition. */
  method DetectPulses(data: seq<real>, threshold: real) returns (out: seq<int>)
    requires |data| >= 2
    ensures out == Pulses(data, threshold)
  {
    var n := |data|;
    out := [];
    var inPulse := false;
    for i := 0 to n - 2
      invariant inPulse == Open(data, threshold, i)
      invariant out == Emitted(data, threshold, i)
    {
      var rise := data[i+2] - data[i];
      if rise > threshold {
        if !inPulse {
          inPulse := true;
          out := out + [i];
        }
      } else if inPulse {
        inPulse := false;
        var j := i + 2;
        while j < n && data[j] >= data[j-1]
          invariant i + 2 <= j <= n
          invariant RunEnd(data, j) == RunEnd(data, i + 2)
        {
          j := j + 1;
        }
        out := out + [j - 2];
      }
    }
  }

  /** Even positions of `e` hold starts: indices below `m` whose rise
      exceeds the threshold while the previous one did not. */
  ghost predicate StartsAreRisingEdges(d: seq<real>, t: real, e: seq<int>, m: int)
    requires m + 2 <= |d|
  {
    forall k :: 0 <= k < |e| && k % 2 == 0 ==>
      0 <= e[k] < m && Rises(d, t, e[k]) && !Open(d, t, e[k])
  }

  /** Every rise on `[lo, hi)` exceeds the threshold. */
  ghost predicate RisesOn(d: seq<real>, t: real, lo: int, hi: int)
    requires hi + 2 <= |d|
  {
    forall x :: lo <= x < hi ==> 0 <= x && Rises(d, t, x)
  }

  /** `end` is what is written when the pulse begun at `start` closes at
      scan index `c`: every rise from `start` up to `c` exceeded the
      threshold, the rise at `c` does not, and `end == EndAt(d, c)`. */
  ghost predicate ClosesAt(d: seq<real>, t: real, start: int, c: int, end: int)
    requires c + 2 < |d|
  {
    start < c && 0 <= c && RisesOn(d, t, start, c) && !Rises(d, t, c) && end == EndAt(d, c)
  }

  /** `end` closes the pulse begun at `start` at some scan index below `m`. */
  ghost predicate EndOf(d: seq<real>, t: real, start: int, end: int, m: int)
    requires m + 2 <= |d|
  {
    exists c :: c < m && ClosesAt(d, t, start, c, end)
  }

  /** Odd positions of `e` hold ends: each closes the pulse begun by the
      start before it, at some scan index below `m`. */
  ghost predicate EndsClosePulses(d: seq<real>, t: real, e: seq<int>, m: int)
    requires m + 2 <= |d|
  {
    forall k :: 0 <= k < |e| && k % 2 == 1 ==> EndOf(d, t, e[k-1], e[k], m)
  }

  /** Starts, at the even positions of `e`, increase strictly. */
  ghost predicate StartsIncrease(e: seq<int>)
  {
    forall k :: 0 <= k < |e| && k % 2 == 0 && k + 2 < |e| ==> e[k] < e[k+2]
  }

  /** `e` ends on a start exactly when a pulse is open at `m`, and then
      every rise from that start up to `m` exceeds the threshold. */
  ghost predicate OpenAtEnd(d: seq<real>, t: real, e: seq<int>, m: int)
    requires 0 <= m && m + 2 <= |d|
  {
    && (|e| % 2 == 1 <==> Open(d, t, m))
    && (|e| % 2 == 1 ==> RisesOn(d, t, e[|e|-1], m))
  }

  /** Induction step of `EmittedShape` for the starts. */
  lemma StepStarts(d: seq<real>, t: real, m: int)
    requires 0 < m && m + 2 <= |d|
    requires StartsAreRisingEdges(d, t, Emitted(d, t, m - 1), m - 1)
    requires OpenAtEnd(d, t, Emitted(d, t, m - 1), m - 1)
    ensures StartsAreRisingEdges(d, t, Emitted(d, t, m), m)
  {
  }

  /** Induction step of `EmittedShape` for the ends: a new end closes the
      pulse whose start is the last value written before it. */
  lemma StepEnds(d: seq<real>, t: real, m: int)
    requires 0 < m && m + 2 <= |d|
    requires EndsClosePulses(d, t, Emitted(d, t, m - 1), m - 1)
    requires StartsAreRisingEdges(d, t, Emitted(d, t, m - 1), m - 1)
    requires OpenAtEnd(d, t, Emitted(d, t, m - 1), m - 1)
    ensures EndsClosePulses(d, t, Emitted(d, t, m), m)
  {
    var e0, e := Emitted(d, t, m - 1), Emitted(d, t, m);
    var i := m - 1;
    assert e == e0 + Step(d, t, i);
    forall k | 0 <= k < |e| && k % 2 == 1
      ensures EndOf(d, t, e[k-1], e[k], m)
    {
      if k < |e0| {
        assert e[k] == e0[k] && e[k-1] == e0[k-1];
        var c :| c < m - 1 && ClosesAt(d, t, e0[k-1], c, e0[k]);
        assert c < m && ClosesAt(d, t, e[k-1], c, e[k]);
      } else {
        assert !Rises(d, t, i) && Open(d, t, i);
        assert e[k-1] == e0[|e0|-1] && e[k] == EndAt(d, i);
        assert e[k-1] < i;
        assert ClosesAt(d, t, e[k-1], i, e[k]);
      }
    }
  }

  /** Induction step of `EmittedShape` for the order of the starts. */
  lemma StepIncrease(d: seq<real>, t: real, m: int)
    requires 0 < m && m + 2 <= |d|
    requires StartsIncrease(Emitted(d, t, m - 1))
    requires StartsAreRisingEdges(d, t, Emitted(d, t, m - 1), m - 1)
    requires OpenAtEnd(d, t, Emitted(d, t, m - 1), m - 1)
    ensures StartsIncrease(Emitted(d, t, m))
  {
  }

  /** Induction step of `EmittedShape` for the pulse left open. */
  lemma StepOpen(d: seq<real>, t: real, m: int)
    requires 0 < m && m + 2 <= |d|
    requires StartsAreRisingEdges(d, t, Emitted(d, t, m - 1), m - 1)
    requires OpenAtEnd(d, t, Emitted(d, t, m - 1), m - 1)
    ensures OpenAtEnd(d, t, Emitted(d, t, m), m)
  {
  }

  /** The shape of what the scan below `m` has written: starts and ends
      alternate beginning with a start, each start a rising edge and each
      end closing the pulse before it; starts increase strictly; a pulse is
      left open, with no end written, exactly when the last rise scanned
      exceeded the threshold. */
  lemma {:induction false} EmittedShape(d: seq<real>, t: real, m: int)
    requires 0 <= m && m + 2 <= |d|
    ensures StartsAreRisingEdges(d, t, Emitted(d, t, m), m)
    ensures EndsClosePulses(d, t, Emitted(d, t, m), m)
    ensures StartsIncrease(Emitted(d, t, m))
    ensures OpenAtEnd(d, t, Emitted(d, t, m), m)
  {
    if m > 0 {
      EmittedShape(d, t, m - 1);
      StepStarts(d, t, m);
      StepEnds(d, t, m);
      StepIncrease(d, t, m);
      StepOpen(d, t, m);
    }
  }

  /** The scan only appends: what is written below `m` is a prefix of
      what is written below any later `m2`. */
  lemma {:induction false} EmittedPrefix(d: seq<real>, t: real, m: int, m2: int)
    requires 0 <= m <= m2 && m2 + 2 <= |d|
    ensures |Emitted(d, t, m)| <= |Emitted(d, t, m2)|
    ensures Emitted(d, t, m2)[..|Emitted(d, t, m)|] == Emitted(d, t, m)
  {
    if m < m2 {
      EmittedPrefix(d, t, m, m2 - 1);
      assert Emitted(d, t, m2) == Emitted(d, t, m2 - 1) + Step(d, t, m2 - 1);
    }
  }

  /** The converse of `PulsesShape`: every rising edge `i` of the rise
      condition is written as a start, at an even position, and every
      falling edge `i` writes `EndAt(d, i)` as an end, at an odd position. */
  lemma EdgesAreWritten(d: seq<real>, t: real, i: int)
    requires 0 <= i && i + 2 < |d|
    ensures Rises(d, t, i) && !Open(d, t, i) ==>
              exists k :: 0 <= k < |Pulses(d, t)| && k % 2 == 0 && Pulses(d, t)[k] == i
    ensures !Rises(d, t, i) && Open(d, t, i) ==>
              exists k :: 0 <= k < |Pulses(d, t)| && k % 2 == 1 && Pulses(d, t)[k] == EndAt(d, i)
  {
    EmittedShape(d, t, i);
    EmittedPrefix(d, t, i + 1, |d| - 2);
    var e0, e1 := Emitted(d, t, i), Emitted(d, t, i + 1);
    assert e1 == e0 + Step(d, t, i);
    var k := |e0|;
    if Rises(d, t, i) != Open(d, t, i) {
      assert Pulses(d, t)[k] == e1[k];
    }
  }

  /** What `detectPulses` writes, for every input: starts and ends
      alternate beginning with a start; each start is an index whose rise
      exceeds the threshold while the previous index's did not; each end
      lies strictly after the start it closes and at most at `n - 2`;
      starts increase strictly; there are as many ends as starts, or one
      fewer exactly when the pulse is still open at the last scanned index;
      two samples give no output. */
  lemma PulsesShape(d: seq<real>, t: real)
    requires |d| >= 2
    ensures forall k :: 0 <= k < |Pulses(d, t)| && k % 2 == 0 ==>
              0 <= Pulses(d, t)[k] < |d| - 2 && Rises(d, t, Pulses(d, t)[k])
              && (Pulses(d, t)[k] == 0 || !Rises(d, t, Pulses(d, t)[k] - 1))
    ensures forall k :: 0 <= k < |Pulses(d, t)| && k % 2 == 1 ==>
              Pulses(d, t)[k-1] < Pulses(d, t)[k] <= |d| - 2
    ensures StartsIncrease(Pulses(d, t))
    ensures |Pulses(d, t)| % 2 == 1 <==> |d| >= 3 && Rises(d, t, |d| - 3)
    ensures |d| == 2 ==> Pulses(d, t) == []
  {
    var e := Pulses(d, t);
    EmittedShape(d, t, |d| - 2);
    forall k | 0 <= k < |e| && k % 2 == 1
      ensures e[k-1] < e[k] <= |d| - 2
    {
      var c :| c < |d| - 2 && ClosesAt(d, t, e[k-1], c, e[k]);
    }
  }
}

module PulseExamples {
  import opened PulseDetection

  /** A step from 0 to 10 held for five samples, threshold 5: the pulse
      starts at 2, where the rise first exceeds 5 (the start is written as
      the scan index, not the index of the higher sample), and closes at
      scan index 4. The run walked from index 6 climbs no further and drops
      at 9, so the end written is 7, one before the last sample of the
      plateau. */
  lemma StepSignal()
    ensures Pulses([0.0, 0.0, 0.0, 0.0, 10.0, 10.0, 10.0, 10.0, 10.0, 0.0, 0.0], 5.0) == [2, 7]
  {
    var d := [0.0, 0.0, 0.0, 0.0, 10.0, 10.0, 10.0, 10.0, 10.0, 0.0, 0.0];
    assert RunEnd(d, 6) == 9 by {
      assert RunEnd(d, 9) == 9;
    }
    assert Emitted(d, 5.0, 3) == [2];
    assert Emitted(d, 5.0, 5) == [2, 7];
    assert Emitted(d, 5.0, 9) == [2, 7];
  }

  /** A pulse can start before the previous one's end has been reached:
      the end written at scan index 2 is 5, found by walking the long
      non-decreasing run, while the next start is 3. Written pulses
      therefore need not be disjoint intervals. */
  lemma OverlappingPulses()
    ensures Pulses([0.0, 0.0, 2.0, 2.0, 2.0, 4.0, 4.0], 1.0) == [0, 5, 3]
  {
    var d := [0.0, 0.0, 2.0, 2.0, 2.0, 4.0, 4.0];
    assert RunEnd(d, 4) == 7 by {
      assert RunEnd(d, 7) == 7;
    }
    assert Emitted(d, 1.0, 3) == [0, 5];
    assert Emitted(d, 1.0, 5) == [0, 5, 3];
  }

  /** Two pulses can share their end: both close inside the same
      non-decreasing run, which drops nowhere, so each end is `n - 2`. */
  lemma RepeatedEnds()
    ensures Pulses([0.0, 0.0, 2.0, 2.0, 2.0, 4.0, 4.0, 4.0], 1.0) == [0, 6, 3, 6]
  {
    var d := [0.0, 0.0, 2.0, 2.0, 2.0, 4.0, 4.0, 4.0];
    assert RunEnd(d, 4) == 8 by {
      assert RunEnd(d, 8) == 8;
    }
    assert RunEnd(d, 7) == 8;
    assert Emitted(d, 1.0, 3) == [0, 6];
    assert Emitted(d, 1.0, 5) == [0, 6, 3];
    assert Emitted(d, 1.0, 6) == [0, 6, 3, 6];
  }
}
