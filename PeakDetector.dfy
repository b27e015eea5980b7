/**
 * `detectPeaks`: the loudness metrics of the chunks are compared with
 * rough-median × 5; the indices above that threshold are collected in order,
 * and the time gap between the first two of them is reported.
 */
module PeakDetector {
  import opened Median

  /** `THRESHOLD_MULTIPLIER` / `thresholdMultiplier`. */
  const THRESHOLD_MULTIPLIER: int := 5

  function Threshold(sums: seq<int>): int
  {
    RoughMedian(sums) * THRESHOLD_MULTIPLIER
  }

  /** The qualifying indices from `from` on, in list order. */
  function PeaksFrom(sums: seq<int>, threshold: int, from: nat): (peaks: seq<nat>)
    requires from <= |sums|
    ensures forall k :: 0 <= k < |peaks| ==> from <= peaks[k] < |sums| && sums[peaks[k]] > threshold
    ensures forall i :: from <= i < |sums| && sums[i] > threshold ==> i in peaks
    ensures forall k, l :: 0 <= k < l < |peaks| ==> peaks[k] < peaks[l]
    decreases |sums| - from
  {
    if from == |sums| then []
    else if sums[from] > threshold then [from] + PeaksFrom(sums, threshold, from + 1)
    else PeaksFrom(sums, threshold, from + 1)
  }

  /**
   * `sumChunkList.map((value, index) => value > threshold ? index : null)
   * .filter(index => index !== null)`: exactly the indices whose metric is
   * above the threshold, strictly increasing.
   */
  function PeakIndices(sums: seq<int>, threshold: int): (peaks: seq<nat>)
    ensures forall i :: i in peaks <==> 0 <= i < |sums| && sums[i] > threshold
    ensures forall k, l :: 0 <= k < l < |peaks| ==> peaks[k] < peaks[l]
  {
    PeaksFrom(sums, threshold, 0)
  }

  /** The three ways `detectPeaks` ends. */
  datatype PeakReport =
    | NoData          // empty metric list: it returns at once
    | NoClearPeaks    // fewer than two metrics above the threshold: "No clear peaks detected"
    | TwoPeaks(firstPeakIndex: nat, secondPeakIndex: nat, gapMs: int)

  /**
   * `detectPeaks` over the metric log and the chunk time log. The times are
   * read at metric indices, so the time log must be at least as long as the
   * metric log (the stream session keeps it so).
   */
  function DetectPeaks(sums: seq<int>, chunkTimes: seq<int>): (report: PeakReport)
    requires |sums| <= |chunkTimes|
    ensures report.NoData? <==> sums == []
    ensures report.TwoPeaks? ==> report.firstPeakIndex < report.secondPeakIndex < |sums|
  {
    if |sums| == 0 then NoData
    else
      var peaks := PeakIndices(sums, Threshold(sums));
      if |peaks| < 2 then NoClearPeaks
      else TwoPeaks(peaks[0], peaks[1], chunkTimes[peaks[1]] - chunkTimes[peaks[0]])
  }

  /** A metric qualifies as a peak of the list. */
  predicate IsPeak(sums: seq<int>, i: int)
  {
    0 <= i < |sums| && sums[i] > Threshold(sums)
  }

  /** Fewer than two indices qualify exactly when no two metrics are both peaks. */
  lemma AtMostOnePeak(sums: seq<int>)
    ensures |PeakIndices(sums, Threshold(sums))| < 2 <==>
      forall i, j :: 0 <= i < j < |sums| && IsPeak(sums, i) ==> !IsPeak(sums, j)
  {
    var peaks := PeakIndices(sums, Threshold(sums));
    if |peaks| < 2 {
      forall i, j | 0 <= i < j < |sums| && IsPeak(sums, i) ensures !IsPeak(sums, j) {
        if IsPeak(sums, j) {
          assert false;
        }
      }
    } else {
      assert IsPeak(sums, peaks[0]) && IsPeak(sums, peaks[1]) && peaks[0] < peaks[1];
    }
  }

  /** With two or more peaks, the first two in the list are the two lowest peak indices. */
  lemma FirstTwoPeaks(sums: seq<int>)
    requires |PeakIndices(sums, Threshold(sums))| >= 2
    ensures var peaks := PeakIndices(sums, Threshold(sums));
      IsPeak(sums, peaks[0]) && IsPeak(sums, peaks[1]) && peaks[0] < peaks[1] &&
      forall j :: 0 <= j < peaks[1] && j != peaks[0] ==> !IsPeak(sums, j)
  {
    var peaks := PeakIndices(sums, Threshold(sums));
    forall j | 0 <= j < peaks[1] && j != peaks[0] ensures !IsPeak(sums, j) {
      if IsPeak(sums, j) {
        assert false;
      }
    }
  }

  /**
   * What `detectPeaks` reports, independently of how the peak list is built:
   * "no clear peaks" exactly when at most one metric exceeds the threshold;
   * otherwise the first two metrics above it, in list order, with the
   * difference of their chunk times; later peaks play no part.
   */
  lemma DetectPeaksOutcomes(sums: seq<int>, chunkTimes: seq<int>)
    requires |sums| <= |chunkTimes|
    ensures DetectPeaks(sums, chunkTimes).NoClearPeaks? <==>
      sums != [] && forall i, j :: 0 <= i < j < |sums| && IsPeak(sums, i) ==> !IsPeak(sums, j)
    ensures DetectPeaks(sums, chunkTimes).TwoPeaks? ==>
      var first, second := DetectPeaks(sums, chunkTimes).firstPeakIndex, DetectPeaks(sums, chunkTimes).secondPeakIndex;
      IsPeak(sums, first) && IsPeak(sums, second) &&
      (forall j :: 0 <= j < second && j != first ==> !IsPeak(sums, j)) &&
      DetectPeaks(sums, chunkTimes).gapMs == chunkTimes[second] - chunkTimes[first]
  {
    if sums != [] {
      var peaks := PeakIndices(sums, Threshold(sums));
      AtMostOnePeak(sums);
      if |peaks| >= 2 {
        FirstTwoPeaks(sums);
      }
    }
  }

  /**
   * The time log only enters the gap: over two time logs the outcome and the
   * peak indices are the same, and each gap is read from its own log.
   */
  lemma DetectPeaksRetimed(sums: seq<int>, times: seq<int>, other: seq<int>)
    requires |sums| <= |times| && |sums| <= |other|
    ensures DetectPeaks(sums, times).NoData? == DetectPeaks(sums, other).NoData?
    ensures DetectPeaks(sums, times).NoClearPeaks? == DetectPeaks(sums, other).NoClearPeaks?
    ensures DetectPeaks(sums, other).TwoPeaks? ==>
      var report, retimed := DetectPeaks(sums, times), DetectPeaks(sums, other);
      report.firstPeakIndex == retimed.firstPeakIndex &&
      report.secondPeakIndex == retimed.secondPeakIndex &&
      retimed.gapMs == other[retimed.secondPeakIndex] - other[retimed.firstPeakIndex]
  {
    if sums != [] {
      var peaks := PeakIndices(sums, Threshold(sums));
      if |peaks| >= 2 {
        assert DetectPeaks(sums, times) == TwoPeaks(peaks[0], peaks[1], times[peaks[1]] - times[peaks[0]]);
        assert DetectPeaks(sums, other) == TwoPeaks(peaks[0], peaks[1], other[peaks[1]] - other[peaks[0]]);
      }
    }
  }

  // ---------------------------------------------------------------------
  // Worked examples
  // ---------------------------------------------------------------------

  /** No metric exceeds five times the median 55. */
  lemma QuietExample(sums: seq<int>, chunkTimes: seq<int>)
    requires sums == [50, 60, 55]
    requires |chunkTimes| == 3
    ensures DetectPeaks(sums, chunkTimes) == NoClearPeaks
  {
    RoughMedianOfSortedCopy(sums, [50, 55, 60]);
    assert Threshold(sums) == 275;
    AtMostOnePeak(sums);
  }

  /** Five metrics, quiet but for two taps at positions 1 and 3. */
  predicate TwoTapMetrics(sums: seq<int>)
  {
    |sums| == 5 && sums[0] == 100 && sums[1] == 5000 && sums[2] == 100 && sums[3] == 6000 && sums[4] == 100
  }

  /** The metrics of the two-tap example have rough median 100, hence threshold 500. */
  lemma TwoTapThreshold(sums: seq<int>)
    requires TwoTapMetrics(sums)
    ensures Threshold(sums) == 500
  {
    var sorted := [sums[0], sums[2], sums[4], sums[1], sums[3]];
    assert multiset(sums) == multiset{100, 100, 100, 5000, 6000} by {
      assert sums == [sums[0], sums[1], sums[2], sums[3], sums[4]];
    }
    assert multiset(sorted) == multiset{100, 100, 100, 5000, 6000};
    assert Ascending(sorted);
    RoughMedianOfSortedCopy(sums, sorted);
  }

  /**
   * Two taps among quiet chunks: the median is 100, the threshold 500, and
   * the chunks at 1 and 3 are reported with the difference of their times.
   */
  lemma TwoTapExample(sums: seq<int>, chunkTimes: seq<int>)
    requires TwoTapMetrics(sums)
    requires |chunkTimes| >= 5
    ensures DetectPeaks(sums, chunkTimes) == TwoPeaks(1, 3, chunkTimes[3] - chunkTimes[1])
  {
    TwoTapThreshold(sums);
    assert PeaksFrom(sums, 500, 4) == [];
    assert PeaksFrom(sums, 500, 3) == [3];
    assert PeaksFrom(sums, 500, 2) == [3];
    assert PeaksFrom(sums, 500, 1) == [1, 3];
    assert PeaksFrom(sums, 500, 0) == [1, 3];
  }
}
