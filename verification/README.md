# Waveform smoothing and pulse detection, modelled in Dafny

This project models the computational core of a small C++ tool for sampled
detector waveforms: the 7-tap smoothing filter `smoothData` and the pulse
start/end detector `detectPulses` (both in `util.cpp`), and the batch
driver's rule for which `.dat` files it processes and what it names their
intermediate smoothed files (`main.cpp`). Samples and the voltage threshold
are Dafny `real`s.

- `smoothing.dfy`, module `Smoothing`: `SmoothData` is the three counted loops
  of `smoothData`, appending one output value per step to the sequence the
  source writes to its output file. The first three and last three values
  are the negated input samples. Each interior position gets `Smooth7`, the
  1-2-3-3-3-2-1 weighted average divided by 15. Lemmas show that this
  formula is the weighted mean under weights summing to 15, that it stays
  within the range of its seven-sample window, and that it maps a constant
  window to the constant.
- `pulse_detection.dfy`, module `PulseDetection`: `DetectPulses` is the
  scan with its mutable `inPulse` flag and the inner `while` over `j`. It
  is proved equal to `Pulses`, a reference definition that has no state.
  After the scan has processed index `i`, `inPulse` holds exactly when the
  two-step rise `d[i+2] - d[i]` exceeded the threshold. So a start is
  written at each rising edge of that condition, and an end at each falling
  edge. `EmittedShape` and `PulsesShape` derive the properties of the
  output from that definition: alternation, bounds, ordering and the final
  open pulse; `EdgesAreWritten` proves the converse. Module `PulseExamples`
  works three concrete signals through.
- `batch_names.dfy`, module `BatchNames`: the selection predicate
  `IsDataFile` and the derived name `SmoothedName`, with its inverse and
  injectivity.

Two behaviours of the code are worth stating up front:

- The code writes the first and last three values negated
  (util.cpp:35, util.cpp:48).
- With three to five samples, the first and last loops of `smoothData`
  overlap, and the code writes six values, more than it read. `SmoothData`
  states `|out| == max(n, 6)`.

## Model

| member | source | states |
|---|---|---|
| Smoothing.SmoothData | util.cpp:31-49 | for at least 3 samples, the values written in order: `max(n, 6)` of them (exactly `n` from 6 samples upward); the first three are `-data[0..2]`, the last three `-data[n-3..n-1]`, and each interior `i` in `[3, n-3)` is the weighted average `Smooth7(data, i)` of samples `i-3..i+3` |
| Smoothing.WeightsSumTo15 | util.cpp:41 | the weights 1,2,3,3,3,2,1 add up to the divisor 15 |
| Smoothing.Smooth7IsWeightedMean | util.cpp:41 | the formula written out in the source equals the weighted sum of the window `d[i-3..i+4]` under those weights, divided by their sum |
| Smoothing.WindowBounds | util.cpp:41 | a smoothed interior value lies between any lower and upper bound of its seven input samples (no overshoot) |
| Smoothing.ConstantWindow | util.cpp:41 | an interior position whose seven-sample window is constant `c` is smoothed to exactly `c` |
| PulseDetection.RunEnd | util.cpp:96-100 | the index where the inner scan stops: the first `j' >= j` with `j' = n` or `d[j'] < d[j'-1]`, with every step before it non-decreasing |
| PulseDetection.DetectPulses | util.cpp:78-103 | for at least 2 samples, the loop with the `inPulse` flag and the inner `j` scan writes exactly `Pulses(data, threshold)`: a start `i` where the rise at `i` exceeds the threshold and the rise at `i-1` did not, and `RunEnd(d, i+2) - 2` where the rise at `i` does not exceed it and the rise at `i-1` did |
| PulseDetection.EmittedShape | util.cpp:79-103 | after scanning the indices below any `m`: starts sit at even positions and are rising edges; each end is written at a scan index `c` after the start it closes, with every rise from that start to `c` above the threshold, the rise at `c` not, and the end `EndAt(d, c)`; starts increase strictly; the count is odd exactly when a pulse is open |
| PulseDetection.EmittedPrefix | util.cpp:89-101 | the scan only appends: what is written before any index is a prefix of what is written by the end |
| PulseDetection.EdgesAreWritten | util.cpp:82-101 | the converse of the shape lemma: every index whose rise exceeds the threshold while the previous one did not is written as a start at an even position, and every index whose rise does not exceed it while the previous one did writes `EndAt(d, i)` at an odd position |
| PulseDetection.PulsesShape | util.cpp:79-103 | for the whole scan: starts and ends alternate beginning with a start; every start `s` is below `n-2`, its rise exceeds the threshold and the rise at `s-1` does not; every end is strictly greater than its start and at most `n-2`; starts increase strictly; the ends number the starts, or one fewer exactly when the last rise scanned (at `n-3`) exceeds the threshold; 2 samples give no output |
| PulseExamples.StepSignal | util.cpp:80-101 | on a 0-to-10 step held for five samples with threshold 5, the output is `[2, 7]`: the start is the scan index and the end lies one before the plateau's last sample |
| PulseExamples.OverlappingPulses | util.cpp:92-101 | a start (3) can be written after an end (5) that lies further right, so written pulses need not be disjoint |
| PulseExamples.RepeatedEnds | util.cpp:92-101 | two pulses closing inside the same non-decreasing run write the same end: the output is `[0, 6, 3, 6]` |
| BatchNames.SmoothedName | main.cpp:28 | the intermediate name is the stem followed by `_smoothed.dat`: 9 characters longer, the original's stem as prefix, and itself a selected name |
| BatchNames.OriginalOfSmoothed | main.cpp:28 | a selected name is recovered from its intermediate name (round trip) |
| BatchNames.SmoothedNameInjective | main.cpp:28 | distinct selected names give distinct intermediate names |
| BatchNames.SelectedIsStemAndSuffix | main.cpp:26 | a selected name is a non-empty stem followed by `.dat` |
| BatchNames.StemAndSuffixIsSelected | main.cpp:26 | every non-empty stem followed by `.dat` is selected, and its stem is recovered |
| BatchNames.Rejected | main.cpp:26 | the bare name `.dat` and names ending otherwise are not selected |

## Left out

- Reading samples from the input file, the `cerr` diagnostics and the early returns when a file cannot be opened (util.cpp:8-29, util.cpp:55-76): file I/O. Each method takes the samples read and returns the values or indices written, in writing order.
- The text formatting of written values (`<<` with six significant digits): output formatting.
- IEEE-754 arithmetic: samples and the threshold are reals, so the rise, the weighted sum and the division by 15 are exact.
- Inputs too short for the source's loops: fewer than 3 samples in smoothing (the first loop reads past the end) and fewer than 2 in detection (the unsigned bound `data.size() - 2` wraps). These are preconditions, not modelled behaviour.
- The `int` loop counters compared against `size_t` bounds: the model uses unbounded integers, so inputs longer than the `int` range are not modelled.
- Directory traversal, the usage exit, printing the file name and removing the intermediate file (main.cpp:10-13, main.cpp:19-42): operating-system calls. Whether `readdir` also returns the intermediate file created during the walk is up to the operating system. `SmoothedName` shows only that such a file would pass the selection test.
- `readParams` and the two-argument `detectPulses(smoothedFileName, params)` called at main.cpp:16 and main.cpp:32: neither is defined in util.cpp or main.cpp, so neither is part of this model.
