/**
 * The streaming screen's accumulator (`app/index.jsx`): every audio chunk
 * delivered by the native stream is decoded, appended to `audioBuffer`,
 * copied into the pre-allocated `globalAudio` Int16Array at the offset where
 * it lands in `audioBuffer`, and logged with one time offset in
 * `chunkTimeList` and one loudness metric in `sumChunkList`. The
 * `isStreaming` flag is raised by `startStreaming` and lowered by
 * `stopStreaming`, which saves the recording and then runs the peak
 * detector over the two logs.
 *
 * Clock readings (`Date.now()`), the outcome of the permission request and
 * whether a native call throws are parameters; `atob` failing on malformed
 * base64 is an absent byte string.
 */
module StreamSession {
  import opened Pcm
  import opened PeakDetector

  datatype Option<T> = None | Some(value: T)

  /** `globalAudioArraySize`: ten minutes of 44.1 kHz mono samples. */
  const GLOBAL_AUDIO_ARRAY_SIZE: nat := 44100 * 60 * 10

  /** The chunks laid end to end, in arrival order. */
  function Flatten(chunks: seq<seq<Int16>>): (all: seq<Int16>)
  {
    if chunks == [] then [] else Flatten(chunks[..|chunks| - 1]) + chunks[|chunks| - 1]
  }

  lemma FlattenSnoc(chunks: seq<seq<Int16>>, chunk: seq<Int16>)
    ensures Flatten(chunks + [chunk]) == Flatten(chunks) + chunk
  {
    assert (chunks + [chunk])[..|chunks|] == chunks;
  }

  /** The earlier chunks' samples form a prefix of all samples. */
  lemma {:induction false} FlattenPrefix(chunks: seq<seq<Int16>>, k: nat)
    requires k <= |chunks|
    ensures Flatten(chunks[..k]) <= Flatten(chunks)
    decreases |chunks| - k
  {
    if k < |chunks| {
      FlattenPrefix(chunks, k + 1);
      assert chunks[..k + 1][..k] == chunks[..k];
      assert Flatten(chunks[..k + 1]) == Flatten(chunks[..k]) + chunks[k];
    } else {
      assert chunks[..k] == chunks;
    }
  }

  /**
   * Chunk k occupies the samples from the total length of the chunks before
   * it, for its own length: this is where `handleAudioData` copies it.
   */
  lemma ChunkPlacement(chunks: seq<seq<Int16>>, k: nat)
    requires k < |chunks|
    ensures var offset := |Flatten(chunks[..k])|;
      offset + |chunks[k]| <= |Flatten(chunks)| &&
      Flatten(chunks)[offset..offset + |chunks[k]|] == chunks[k]
  {
    FlattenPrefix(chunks, k + 1);
    assert chunks[..k + 1][..k] == chunks[..k];
    assert Flatten(chunks[..k + 1]) == Flatten(chunks[..k]) + chunks[k];
  }

  /**
   * `TypedArray.prototype.set(source, offset)`: copies `source` into
   * `target` starting at `offset`, or throws a RangeError (reported here as
   * `ok == false`) without writing anything when it would run past the end.
   */
  method TypedArraySet(target: array<Int16>, source: seq<Int16>, offset: nat) returns (ok: bool)
    modifies target
    ensures ok <==> offset + |source| <= target.Length
    ensures ok ==> target[..] == old(target[..offset]) + source + old(target[offset + |source|..])
    ensures !ok ==> target[..] == old(target[..])
  {
    if offset + |source| > target.Length {
      return false;
    }
    for i := 0 to |source|
      invariant target[..offset] == old(target[..offset])
      invariant target[offset..offset + i] == source[..i]
      invariant target[offset + i..] == old(target[offset + i..])
    {
      target[offset + i] := source[i];
      assert target[offset..offset + i + 1] == target[offset..offset + i] + [source[i]];
    }
    assert target[..] == target[..offset] + target[offset..offset + |source|] + target[offset + |source|..];
    return true;
  }

  /**
   * What `globalAudio` and `audioBuffer` hold given the chunks accepted so
   * far: the buffer holds those chunks back to back and zeros after them;
   * `audioBuffer` agrees with it until the first chunk that did not fit,
   * after which it is longer than the capacity for good.
   */
  ghost predicate StorageInv(global: seq<Int16>, buffer: seq<Int16>, accepted: seq<seq<Int16>>)
  {
    var stored := Flatten(accepted);
    |global| == GLOBAL_AUDIO_ARRAY_SIZE &&
    |stored| <= |global| &&
    global[..|stored|] == stored &&
    (forall k :: |stored| <= k < |global| ==> global[k] == 0) &&
    stored <= buffer &&
    (buffer == stored || |buffer| > |global|)
  }

  /**
   * The two logs given the chunks accepted so far: one time entry per
   * accepted chunk, each the offset of its clock reading from the first
   * chunk's; the metrics are those of the most recent accepted chunks.
   */
  ghost predicate LogInv(chunkTimes: seq<int>, sums: seq<int>, first: Option<int>,
                         accepted: seq<seq<Int16>>, pushTimes: seq<int>)
  {
    |chunkTimes| == |accepted| && |pushTimes| == |accepted| &&
    (accepted != [] ==> first.Some?) &&
    (first.Some? ==> forall k :: 0 <= k < |chunkTimes| ==> chunkTimes[k] == pushTimes[k] - first.value) &&
    |sums| <= |accepted| &&
    (forall i :: 0 <= i < |sums| ==> sums[i] == AbsSum(accepted[|accepted| - |sums| + i]))
  }

  /** A chunk that fits is copied right after the stored samples, and the storage invariant then covers it too. */
  lemma StorageAccept(global: seq<Int16>, buffer: seq<Int16>, accepted: seq<seq<Int16>>, chunk: seq<Int16>)
    requires StorageInv(global, buffer, accepted)
    requires |buffer| + |chunk| <= |global|
    ensures buffer == Flatten(accepted)
    ensures StorageInv(global[..|buffer|] + chunk + global[|buffer| + |chunk|..], buffer + chunk, accepted + [chunk])
  {
    var stored := Flatten(accepted);
    var global' := global[..|buffer|] + chunk + global[|buffer| + |chunk|..];
    FlattenSnoc(accepted, chunk);
    assert global'[..|stored| + |chunk|] == stored + chunk;
    forall k | |stored| + |chunk| <= k < |global'| ensures global'[k] == 0 {
      assert global'[k] == global[k];
    }
  }

  /** A chunk that does not fit lengthens `audioBuffer` only, and the storage invariant still holds. */
  lemma StorageOverflow(global: seq<Int16>, buffer: seq<Int16>, accepted: seq<seq<Int16>>, chunk: seq<Int16>)
    requires StorageInv(global, buffer, accepted)
    requires |buffer| + |chunk| > |global|
    ensures StorageInv(global, buffer + chunk, accepted)
  {
    assert Flatten(accepted) <= buffer + chunk;
  }

  /** Recording the first chunk's clock reading, if none is recorded yet, keeps the logs consistent. */
  lemma LogFirstRead(chunkTimes: seq<int>, sums: seq<int>, first: Option<int>,
                     accepted: seq<seq<Int16>>, pushTimes: seq<int>, readTime: int)
    requires LogInv(chunkTimes, sums, first, accepted, pushTimes)
    ensures LogInv(chunkTimes, sums, if first.None? then Some(readTime) else first, accepted, pushTimes)
  {
  }

  /** Logging an accepted chunk keeps the logs aligned with the accepted chunks. */
  lemma LogAccept(chunkTimes: seq<int>, sums: seq<int>, first: Option<int>,
                  accepted: seq<seq<Int16>>, pushTimes: seq<int>, chunk: seq<Int16>, pushTime: int)
    requires LogInv(chunkTimes, sums, first, accepted, pushTimes) && first.Some?
    ensures LogInv(chunkTimes + [pushTime - first.value], sums + [AbsSum(chunk)], first,
                   accepted + [chunk], pushTimes + [pushTime])
  {
    var accepted' := accepted + [chunk];
    var sums' := sums + [AbsSum(chunk)];
    forall i | 0 <= i < |sums'| ensures sums'[i] == AbsSum(accepted'[|accepted'| - |sums'| + i]) {
      if i < |sums| {
        assert accepted'[|accepted'| - |sums'| + i] == accepted[|accepted| - |sums| + i];
      }
    }
  }

  /**
   * The entries of the time log that belong to the metrics: the last
   * |sums| of them, since a restart empties the metric log only.
   */
  function AlignedTimes(chunkTimes: seq<int>, sums: seq<int>): seq<int>
    requires |sums| <= |chunkTimes|
  {
    chunkTimes[|chunkTimes| - |sums|..]
  }

  /**
   * Under the log invariant, aligned entry i is the time offset of the chunk
   * whose metric is `sums[i]`.
   */
  lemma AlignedTimesBelong(chunkTimes: seq<int>, sums: seq<int>, first: Option<int>,
                           accepted: seq<seq<Int16>>, pushTimes: seq<int>)
    requires LogInv(chunkTimes, sums, first, accepted, pushTimes) && first.Some?
    ensures forall i :: 0 <= i < |sums| ==>
      AlignedTimes(chunkTimes, sums)[i] == pushTimes[|accepted| - |sums| + i] - first.value &&
      sums[i] == AbsSum(accepted[|accepted| - |sums| + i])
  {
  }

  /**
   * `detectPeaks` with each metric's time read at the matching position of
   * the time log. It finds the same peaks as `DetectPeaks`, and agrees with it
   * entirely while the two logs have the same length.
   */
  function DetectPeaksAligned(sums: seq<int>, chunkTimes: seq<int>): (report: PeakReport)
    requires |sums| <= |chunkTimes|
    ensures report.NoData? <==> sums == []
    ensures report.NoClearPeaks? <==> DetectPeaks(sums, chunkTimes).NoClearPeaks?
    ensures report.TwoPeaks? ==> report.firstPeakIndex < report.secondPeakIndex < |sums|
    ensures report.TwoPeaks? ==>
      report.gapMs == chunkTimes[|chunkTimes| - |sums| + report.secondPeakIndex] -
                      chunkTimes[|chunkTimes| - |sums| + report.firstPeakIndex]
    ensures report.TwoPeaks? ==>
      DetectPeaks(sums, chunkTimes).TwoPeaks? &&
      report.firstPeakIndex == DetectPeaks(sums, chunkTimes).firstPeakIndex &&
      report.secondPeakIndex == DetectPeaks(sums, chunkTimes).secondPeakIndex
    ensures |sums| == |chunkTimes| ==> report == DetectPeaks(sums, chunkTimes)
  {
    var times := AlignedTimes(chunkTimes, sums);
    DetectPeaksRetimed(sums, chunkTimes, times);
    assert |sums| == |chunkTimes| ==> times == chunkTimes;
    DetectPeaks(sums, times)
  }

  /**
   * Under the log invariant, the aligned gap between two peaks is the
   * difference of the clock readings logged with the two peak chunks.
   */
  lemma AlignedPeakGap(chunkTimes: seq<int>, sums: seq<int>, first: Option<int>,
                       accepted: seq<seq<Int16>>, pushTimes: seq<int>)
    requires LogInv(chunkTimes, sums, first, accepted, pushTimes)
    ensures var report := DetectPeaksAligned(sums, chunkTimes);
      var offset := |accepted| - |sums|;
      report.TwoPeaks? ==>
        var i, j := report.firstPeakIndex, report.secondPeakIndex;
        i < j < |sums| &&
        sums[i] == AbsSum(accepted[offset + i]) &&
        sums[j] == AbsSum(accepted[offset + j]) &&
        report.gapMs == pushTimes[offset + j] - pushTimes[offset + i]
  {
    var report := DetectPeaksAligned(sums, chunkTimes);
    if report.TwoPeaks? {
      var offset := |accepted| - |sums|;
      var i, j := report.firstPeakIndex, report.secondPeakIndex;
      assert offset == |chunkTimes| - |sums|;
      assert report.gapMs == chunkTimes[offset + j] - chunkTimes[offset + i];
      assert chunkTimes[offset + j] == pushTimes[offset + j] - first.value;
      assert chunkTimes[offset + i] == pushTimes[offset + i] - first.value;
    }
  }

  /**
   * Two chunks logged before a restart, then the two-tap metrics: the time
   * log is two entries longer than the metric log. `detectPeaks` as written
   * times the taps by the entries of the first and third chunks (1000 ms
   * apart), while the tapped chunks are the fourth and sixth, whose readings
   * are 2500 ms apart; the aligned detection reports the latter.
   */
  lemma RestartMisalignsGap(chunkTimes: seq<int>, sums: seq<int>, first: Option<int>,
                            accepted: seq<seq<Int16>>, pushTimes: seq<int>)
    requires LogInv(chunkTimes, sums, first, accepted, pushTimes)
    requires TwoTapMetrics(sums) && |accepted| == 7
    requires pushTimes[1] == 1500 && pushTimes[3] == 2500 && pushTimes[5] == 5000
    ensures sums[1] == AbsSum(accepted[3]) && sums[3] == AbsSum(accepted[5])
    ensures DetectPeaks(sums, chunkTimes) == TwoPeaks(1, 3, 1000)
    ensures DetectPeaksAligned(sums, chunkTimes) == TwoPeaks(1, 3, pushTimes[5] - pushTimes[3])
    ensures pushTimes[5] - pushTimes[3] == 2500
  {
    TwoTapExample(sums, chunkTimes);
    TwoTapExample(sums, AlignedTimes(chunkTimes, sums));
  }

  class Session {
    /** The module-level `globalAudio` buffer: fixed capacity, never reallocated. */
    const globalAudio: array<Int16>
    var audioBuffer: seq<Int16>
    var chunkTimeList: seq<int>
    var sumChunkList: seq<int>
    var firstChunkReadTime: Option<int>
    var isStreaming: bool

    /** The chunks whose copy into `globalAudio` succeeded, in arrival order. */
    ghost var acceptedChunks: seq<seq<Int16>>
    /** The clock reading taken when each accepted chunk's time entry was pushed. */
    ghost var pushTimes: seq<int>

    ghost predicate Valid()
      reads this, globalAudio
    {
      StorageInv(globalAudio[..], audioBuffer, acceptedChunks) &&
      LogInv(chunkTimeList, sumChunkList, firstChunkReadTime, acceptedChunks, pushTimes)
    }

    /** A freshly mounted screen: empty logs, a zero-filled buffer, not streaming. */
    constructor ()
      ensures Valid() && fresh(globalAudio)
      ensures audioBuffer == [] && chunkTimeList == [] && sumChunkList == []
      ensures firstChunkReadTime == None && !isStreaming && acceptedChunks == []
      ensures forall k :: 0 <= k < globalAudio.Length ==> globalAudio[k] == 0
    {
      globalAudio := new Int16[GLOBAL_AUDIO_ARRAY_SIZE](_ => 0);
      audioBuffer, chunkTimeList, sumChunkList := [], [], [];
      firstChunkReadTime, isStreaming := None, false;
      acceptedChunks, pushTimes := [], [];
    }

    /**
     * `handleAudioData(data)`. `data` is the byte string `atob` returns, or
     * `None` when it throws; `readTime` and `pushTime` are the two
     * `Date.now()` readings.
     */
    method HandleAudioData(data: Option<seq<Byte>>, readTime: int, pushTime: int)
      requires Valid()
      modifies this, globalAudio
      ensures Valid()
      ensures firstChunkReadTime == if old(firstChunkReadTime).None? then Some(readTime) else old(firstChunkReadTime)
      ensures isStreaming == old(isStreaming)
      ensures data.None? ==>
        audioBuffer == old(audioBuffer) && chunkTimeList == old(chunkTimeList) &&
        sumChunkList == old(sumChunkList) && globalAudio[..] == old(globalAudio[..]) &&
        acceptedChunks == old(acceptedChunks)
      ensures data.Some? ==> audioBuffer == old(audioBuffer) + DecodeSamples(data.value)
      ensures data.Some? ==>
        var chunk, offset := DecodeSamples(data.value), |old(audioBuffer)|;
        if offset + |chunk| <= GLOBAL_AUDIO_ARRAY_SIZE then
          globalAudio[..] == old(globalAudio[..offset]) + chunk + old(globalAudio[offset + |chunk|..]) &&
          chunkTimeList == old(chunkTimeList) + [pushTime - firstChunkReadTime.value] &&
          sumChunkList == old(sumChunkList) + [AbsSum(chunk)] &&
          acceptedChunks == old(acceptedChunks) + [chunk]
        else
          globalAudio[..] == old(globalAudio[..]) && chunkTimeList == old(chunkTimeList) &&
          sumChunkList == old(sumChunkList) && acceptedChunks == old(acceptedChunks)
    {
      LogFirstRead(chunkTimeList, sumChunkList, firstChunkReadTime, acceptedChunks, pushTimes, readTime);
      if firstChunkReadTime.None? {
        firstChunkReadTime := Some(readTime);
      }
      if data.None? {
        return;
      }
      var chunk, sum := DecodePcm(data.value);
      AppendChunk(chunk, sum, pushTime);
    }

    /**
     * The rest of `handleAudioData` once the chunk is decoded: it joins
     * `audioBuffer`, is copied into `globalAudio` at the offset where it
     * landed there, and is logged with the offset of `pushTime` from the
     * first chunk's reading and with its metric. A chunk that does not fit
     * makes `set` throw: it stays in `audioBuffer`, but nothing is written
     * and nothing is logged.
     */
    method AppendChunk(chunk: seq<Int16>, sum: nat, pushTime: int)
      requires Valid() && firstChunkReadTime.Some? && sum == AbsSum(chunk)
      modifies this, globalAudio
      ensures Valid()
      ensures firstChunkReadTime == old(firstChunkReadTime) && isStreaming == old(isStreaming)
      ensures audioBuffer == old(audioBuffer) + chunk
      ensures var offset := |old(audioBuffer)|;
        if offset + |chunk| <= GLOBAL_AUDIO_ARRAY_SIZE then
          globalAudio[..] == old(globalAudio[..offset]) + chunk + old(globalAudio[offset + |chunk|..]) &&
          chunkTimeList == old(chunkTimeList) + [pushTime - firstChunkReadTime.value] &&
          sumChunkList == old(sumChunkList) + [sum] &&
          acceptedChunks == old(acceptedChunks) + [chunk]
        else
          globalAudio[..] == old(globalAudio[..]) && chunkTimeList == old(chunkTimeList) &&
          sumChunkList == old(sumChunkList) && acceptedChunks == old(acceptedChunks)
    {
      ghost var global, buffer := globalAudio[..], audioBuffer;
      audioBuffer := audioBuffer + chunk;
      var chunkEndIndex := |audioBuffer|;
      var ok := TypedArraySet(globalAudio, chunk, chunkEndIndex - |chunk|);
      if !ok {
        StorageOverflow(global, buffer, acceptedChunks, chunk);
        return;
      }
      StorageAccept(global, buffer, acceptedChunks, chunk);
      LogAccept(chunkTimeList, sumChunkList, firstChunkReadTime, acceptedChunks, pushTimes, chunk, pushTime);
      chunkTimeList, sumChunkList := chunkTimeList + [pushTime - firstChunkReadTime.value], sumChunkList + [sum];
      acceptedChunks, pushTimes := acceptedChunks + [chunk], pushTimes + [pushTime];
    }

    /**
     * `startStreaming`, offered only while not streaming. Without microphone
     * permission nothing changes; otherwise the metric log is emptied (the
     * time log, `audioBuffer` and `firstChunkReadTime` are kept) and the flag
     * is raised if the native stream starts without throwing.
     */
    method StartStreaming(permissionGranted: bool, nativeStartOk: bool)
      requires Valid() && !isStreaming
      modifies this
      ensures Valid()
      ensures !permissionGranted ==> sumChunkList == old(sumChunkList) && !isStreaming
      ensures permissionGranted ==> sumChunkList == [] && isStreaming == nativeStartOk
      ensures audioBuffer == old(audioBuffer) && chunkTimeList == old(chunkTimeList)
      ensures firstChunkReadTime == old(firstChunkReadTime) && acceptedChunks == old(acceptedChunks)
      ensures pushTimes == old(pushTimes)
    {
      if !permissionGranted {
        return;
      }
      sumChunkList := [];
      if nativeStartOk {
        isStreaming := true;
      }
    }

    /**
     * The first half of `stopStreaming`, offered only while streaming: if the
     * native stop throws, the flag stays up and nothing else happens;
     * otherwise the flag is lowered. The logs are left as they are, and
     * chunks still delivered while the file is saved keep arriving through
     * `HandleAudioData`.
     */
    method StopStreaming(nativeStopOk: bool)
      requires Valid() && isStreaming
      modifies this
      ensures Valid()
      ensures isStreaming == !nativeStopOk
      ensures audioBuffer == old(audioBuffer) && chunkTimeList == old(chunkTimeList)
      ensures sumChunkList == old(sumChunkList) && firstChunkReadTime == old(firstChunkReadTime)
      ensures acceptedChunks == old(acceptedChunks) && pushTimes == old(pushTimes)
    {
      if nativeStopOk {
        isStreaming := false;
      }
    }

    /**
     * The second half of a successful `stopStreaming`, once the file is
     * saved: peak detection over the logs as they stand then, each metric
     * timed by its own entry of the time log. Nothing changes.
     */
    method DetectPeaksAfterSave() returns (report: PeakReport)
      requires Valid()
      ensures report == DetectPeaksAligned(sumChunkList, chunkTimeList)
    {
      var offset := |chunkTimeList| - |sumChunkList|;
      report := DetectPeaks(sumChunkList, chunkTimeList[offset..]);
    }

    /**
     * The gap `detectPeaks` reports is the difference of the two raw clock
     * readings logged at the peak indices: the first chunk's reading cancels.
     */
    lemma PeakGapIsClockDifference()
      requires Valid()
      ensures var report := DetectPeaks(sumChunkList, chunkTimeList);
        report.TwoPeaks? ==>
          report.gapMs == pushTimes[report.secondPeakIndex] - pushTimes[report.firstPeakIndex]
    {
    }

    /**
     * While no restart has emptied the metric log, metric i and time entry i
     * belong to the same chunk, so the gap `detectPeaks` reports is the
     * difference of the two peak chunks' own clock readings.
     */
    lemma PeakGapWithoutRestart()
      requires LogInv(chunkTimeList, sumChunkList, firstChunkReadTime, acceptedChunks, pushTimes)
      requires |sumChunkList| == |chunkTimeList|
      ensures var report := DetectPeaks(sumChunkList, chunkTimeList);
        report.TwoPeaks? ==>
          var first, second := report.firstPeakIndex, report.secondPeakIndex;
          sumChunkList[first] == AbsSum(acceptedChunks[first]) &&
          sumChunkList[second] == AbsSum(acceptedChunks[second]) &&
          report.gapMs == pushTimes[second] - pushTimes[first]
    {
      var sums, times := sumChunkList, chunkTimeList;
      DetectPeaksOutcomes(sums, times);
      assert |acceptedChunks| - |sums| == 0;
    }

    /**
     * Every accepted chunk sits in `globalAudio` at the offset given by the
     * samples accepted before it, which is `audioBuffer.length` before its push.
     */
    lemma AcceptedChunkInGlobalAudio(k: nat)
      requires Valid() && k < |acceptedChunks|
      ensures var offset := |Flatten(acceptedChunks[..k])|;
        offset + |acceptedChunks[k]| <= globalAudio.Length &&
        globalAudio[offset..offset + |acceptedChunks[k]|] == acceptedChunks[k]
    {
      ChunkPlacement(acceptedChunks, k);
      var stored := Flatten(acceptedChunks);
      var offset := |Flatten(acceptedChunks[..k])|;
      var end := offset + |acceptedChunks[k]|;
      assert globalAudio[..][..|stored|] == stored;
      forall i | offset <= i < end
        ensures globalAudio[i] == stored[i]
      {
        assert globalAudio[..][..|stored|][i] == stored[i];
      }
    }
  }
}
