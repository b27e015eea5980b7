# Tap-gap audio pipeline, modelled in Dafny

The app streams microphone audio from a React Native screen. Each chunk
arrives as base64 text. It is decoded into 16-bit PCM samples and scored with a loudness
metric (the sum of absolute sample values), and the chunk is stored in a
pre-allocated ten-minute `Int16Array`. When streaming stops, the screen looks for
two loud taps: the chunks whose metric exceeds five times the rough
median of all metrics. It then reports the time between the first two
such chunks. The recording screen also encodes samples into a canonical
PCM WAV file.

The model has five modules:

- `Pcm` (Pcm.dfy) covers the chunk decoder shared by `decodePCMData` and
  `NativeRecordReceivePCM`. It takes the byte string `atob` returns. The
  JavaScript expression `((lo | (hi << 8)) << 16) >> 16` is written out
  with ECMAScript's ToInt32 conversions, and is proved equal to 16-bit sign
  extension. `DecodePcm` is the decoder loop, which fills a fresh
  array pair by pair and accumulates the metric. It is proved against the
  specification `DecodeSamples` / `AbsSum`.
- `Median` (Median.dfy) covers `calculateRoughMedian`. The numeric sort is
  specified by its result, an ascending permutation, which is proved
  unique. The rough median is the element at index floor(n/2) of that
  permutation, or 0 for an empty list.
- `PeakDetector` (PeakDetector.dfy) covers `detectPeaks`, which has three
  outcomes: no data, no clear peaks, and two peaks with their time gap.
- `WavEncoder` (WavEncoder.dfy) covers `encodeWAV`. The DataView setters
  are methods on a fixed-size byte array. The encoder is proved to produce
  exactly `WavFile(samples, rate)`. Every header field is then read back
  from that specification at its offset, and the payload is decoded back
  to the samples with the chunk decoder.
- `StreamSession` (StreamSession.dfy) covers the streaming screen's state
  as a class: the fixed-capacity `globalAudio` array, `audioBuffer`,
  `chunkTimeList`, `sumChunkList`, `firstChunkReadTime` and `isStreaming`.
  `handleAudioData`, `startStreaming` and `stopStreaming` are methods on
  it. `stopStreaming` is two steps: the stop itself (`StopStreaming`), and
  the peak detection that runs once the recording is saved
  (`DetectPeaksAfterSave`). Ghost fields record the chunks whose copy into `globalAudio`
  succeeded and the clock readings logged with them, and the class
  invariant ties the real fields to them.

The following behaviour of the source is modelled as written:

- `audioBuffer.push` runs before `globalAudio.set`. A chunk that does not
  fit still lengthens `audioBuffer`, and then `set` throws and the error
  is caught. From then on every later chunk is rejected as well.
- `startStreaming` empties only `sumChunkList`. The time log, `audioBuffer`
  and `firstChunkReadTime` survive a restart. So the metric log always
  matches the *most recent* accepted chunks, while the time log covers all
  of them (`LogInv`). After a restart, `detectPeaks` as written reads each
  metric's time at the metric's own index, which is the time of an older
  chunk (see Findings). The session's detection instead reads the entry that
  belongs to the same chunk (`DetectPeaksAligned`).

Clock readings (`Date.now()`), the outcome of the permission request and
whether the native stream calls throw are all parameters of the methods.

## Model

| member | source | states |
|---|---|---|
| Pcm.Uint16LE | app/recordinglive/Index.jsx:436-439 | the byte pair read low byte first is a value in [0, 65536) whose low byte is `lo` and whose high byte is `hi` |
| Pcm.SignExtend16 | app/recordinglive/Index.jsx:436-439 | the two's-complement reading is the Int16 congruent to the 16-bit pattern modulo 2^16, negative exactly when the top bit is set |
| Pcm.ToInt32 | app/recordinglive/Index.jsx:436-439 | ECMAScript ToInt32 yields a signed 32-bit value congruent to its argument modulo 2^32 |
| Pcm.ShiftLeft8Byte | app/recordinglive/Index.jsx:437 | `hi << 8` on a byte is the byte times 256, with no 32-bit wrap-around |
| Pcm.BitOrDisjoint | app/recordinglive/Index.jsx:437 | OR-ing a value below 2^k with a multiple of 2^k is their sum |
| Pcm.JsPairIsUint16LE | app/recordinglive/Index.jsx:437 | `lo \| (hi << 8)` is the little-endian unsigned value of the byte pair |
| Pcm.ShiftPairIsSignExtension | app/recordinglive/Index.jsx:438 | `(v << 16) >> 16` on a 16-bit value is its two's-complement reading |
| Pcm.JsSampleIsSignExtension | app/recordinglive/Index.jsx:436-439 | the shift-left-16 / arithmetic-shift-right-16 expression of the decoder equals 16-bit sign extension of the little-endian pair |
| Pcm.DecodedSamplesAt | app/recordinglive/Index.jsx:433-440 | n bytes decode to floor(n/2) samples; sample idx lies in [-32768, 32767] and is congruent modulo 2^16 to the little-endian value of bytes 2·idx and 2·idx+1 |
| Pcm.OddTrailingByteIgnored | app/recordinglive/Index.jsx:433-435 | an odd trailing byte is dropped without error: appending it to an even-length string changes no sample |
| Pcm.DecodeSplits | app/recordinglive/Index.jsx:435-442 | decoding an even-length prefix and the rest separately gives the same samples in the same order |
| Pcm.AbsSumBounds | app/recordinglive/Index.jsx:434-443 | the loudness metric lies between 0 and 32768 × sample count |
| Pcm.AbsSumZeroIffSilent | app/recordinglive/Index.jsx:441 | the loudness metric is 0 exactly when every sample is 0 |
| Pcm.AbsSumAppend | app/recordinglive/Index.jsx:441 | the loudness metrics of consecutive runs of samples add up |
| Pcm.DecodePcm | app/recordinglive/Index.jsx:431-444 | `decodePCMData` (and its twin `NativeRecordReceivePCM`, app/index.jsx lines 41-52): the loop returns exactly the specified samples and the sum of their absolute values |
| Median.Insert | app/recordinglive/Index.jsx:449 | inserting into an ascending list keeps it ascending and adds exactly the one element |
| Median.SortAscending | app/recordinglive/Index.jsx:449 | the sorted copy is ascending and a permutation of the input, of the same length |
| Median.AscendingPermutationUnique | app/recordinglive/Index.jsx:449 | two ascending permutations of the same multiset are equal, so any correct numeric sort gives the same copy |
| Median.RoughMedian | app/recordinglive/Index.jsx:447-452 | 0 for the empty list; otherwise an element of the input |
| Median.RoughMedianOfSortedCopy | app/recordinglive/Index.jsx:449-451 | for every ascending permutation of a non-empty input, the rough median is its element at index floor(n/2) |
| Median.SortKeepsCounts | app/recordinglive/Index.jsx:449 | sorting keeps the number of elements below and above any value |
| Median.AscendingRank | app/recordinglive/Index.jsx:450-451 | in an ascending list, at most k elements lie below element k and at most n-1-k above it |
| Median.RoughMedianRank | app/recordinglive/Index.jsx:447-452 | at most floor(n/2) input elements lie below the rough median and at most n-1-floor(n/2) above it |
| PeakDetector.PeaksFrom | app/recordinglive/Index.jsx:744-746 | the indices from a start position whose metric is above the threshold, each one exactly once, strictly increasing |
| PeakDetector.PeakIndices | app/recordinglive/Index.jsx:742-746 | i is a peak index iff `sums[i] > threshold`; the list is strictly increasing |
| PeakDetector.DetectPeaks | app/index.jsx:127-150 | no data exactly for the empty metric list; two reported peaks are in list order and within it |
| PeakDetector.DetectPeaksOutcomes | app/recordinglive/Index.jsx:738-759 | "no clear peaks" iff the list is non-empty and at most one metric exceeds median × 5; otherwise the reported indices are the first two peaks (no other peak before the second) and the gap is the difference of their time entries |
| PeakDetector.AtMostOnePeak | app/recordinglive/Index.jsx:744-750 | fewer than two peak indices exactly when no two positions both exceed the threshold |
| PeakDetector.FirstTwoPeaks | app/recordinglive/Index.jsx:753-754 | with two or more peaks, the first two entries are peaks, in increasing order, with no other peak before the second |
| PeakDetector.DetectPeaksRetimed | app/recordinglive/Index.jsx:738-757 | the outcome and the peak indices depend only on the metrics; a different time log changes only the gap, which is the difference of its entries at the same two indices |
| PeakDetector.QuietExample | app/recordinglive/Index.jsx:742-752 | metrics 50, 60, 55 have median 55 and threshold 275, so no clear peaks are reported |
| PeakDetector.TwoTapThreshold | app/recordinglive/Index.jsx:742-743 | metrics 100, 5000, 100, 6000, 100 have rough median 100, so the threshold is 500 |
| PeakDetector.TwoTapExample | app/recordinglive/Index.jsx:738-757 | for those metrics, the peaks are positions 1 and 3, and the gap is the difference of their time entries |
| WavEncoder.Uint16BytesRead | app/recordinglive/Index.jsx:777-782 | a 16-bit little-endian field reads back as the stored value modulo 2^16 |
| WavEncoder.Int16BytesRead | app/recordinglive/Index.jsx:789 | a sample stored by `setInt16` reads back unchanged as a signed 16-bit value |
| WavEncoder.Uint32BytesRead | app/recordinglive/Index.jsx:773-784 | a 32-bit little-endian field reads back as the stored value modulo 2^32 |
| WavEncoder.SampleRoundTrip | app/recordinglive/Index.jsx:789 | the two bytes of a stored sample decode, with the chunk decoder, to that sample |
| WavEncoder.PcmBytesDecode | app/recordinglive/Index.jsx:787-790 | the payload bytes decode, with the chunk decoder, to exactly the samples |
| WavEncoder.RiffHeaderFields | app/recordinglive/Index.jsx:772-774 | the RIFF chunk: "RIFF", size (36 + 2n) modulo 2^32, "WAVE" |
| WavEncoder.FmtChunkFields | app/recordinglive/Index.jsx:775-782 | the `fmt ` chunk: tag, size 16, format 1, 1 channel, rate and 2·rate modulo 2^32, block align 2, 16 bits |
| WavEncoder.DataHeaderFields | app/recordinglive/Index.jsx:783-784 | the data chunk header: "data" and size 2n modulo 2^32 |
| WavEncoder.WavFileChunks | app/recordinglive/Index.jsx:762-790 | the file is the RIFF header at 0..12, the `fmt ` chunk at 12..36, the data header at 36..44 and the payload from 44 on |
| WavEncoder.WavRiffSize | app/recordinglive/Index.jsx:773 | offset 4 of the file holds 36 + 2n modulo 2^32 |
| WavEncoder.WavDataSize | app/recordinglive/Index.jsx:784 | offset 40 of the file holds 2n modulo 2^32 |
| WavEncoder.WavFormatFields | app/recordinglive/Index.jsx:775-782 | offsets 12..35 of the file: "fmt ", 16, 1, 1, rate, 2·rate (modulo 2^32), 2, 16 |
| WavEncoder.WavTags | app/recordinglive/Index.jsx:772-783 | the file holds the tags "RIFF" at offset 0, "WAVE" at 8, "fmt " at 12 and "data" at 36 |
| WavEncoder.WavSizesExact | app/recordinglive/Index.jsx:762-784 | while 36 + 2n < 2^32 the RIFF size is the file length minus 8 and the data size is the file length minus 44 |
| WavEncoder.WavSamplesAt | app/recordinglive/Index.jsx:787-790 | bytes 44+2i and 45+2i, read as a little-endian signed 16-bit value, give back sample i |
| WavEncoder.WavPayloadRoundTrip | app/recordinglive/Index.jsx:787-790 | the bytes after the header decode, with the chunk decoder, to the encoded samples |
| WavEncoder.WriteString | app/recordinglive/Index.jsx:766-770 | `writeString` stores the character codes at the offset and changes no other byte |
| WavEncoder.SetUint16 | app/recordinglive/Index.jsx:777 | `setUint16(_, v, true)` stores v modulo 2^16 low byte first and changes no other byte |
| WavEncoder.SetUint32 | app/recordinglive/Index.jsx:773 | `setUint32(_, v, true)` stores v modulo 2^32 least significant byte first and changes no other byte |
| WavEncoder.WriteRiffHeader | app/recordinglive/Index.jsx:772-774 | the first 12 bytes become the RIFF header; nothing after them changes |
| WavEncoder.WriteFmtChunk | app/recordinglive/Index.jsx:775-782 | bytes 12..36 become the `fmt ` chunk; nothing before or after changes |
| WavEncoder.WriteDataHeader | app/recordinglive/Index.jsx:783-784 | bytes 36..44 become the data header; nothing before or after changes |
| WavEncoder.EncodeWav | app/recordinglive/Index.jsx:761-793 | the buffer of 44 + 2n bytes the encoder fills is exactly the specified WAV file |
| StreamSession.ChunkPlacement | app/index.jsx:101-104 | chunk k of the concatenation starts at the total length of the chunks before it |
| StreamSession.TypedArraySet | app/index.jsx:104 | `set(source, offset)` copies the source at the offset and changes nothing else, or throws and changes nothing when it would run past the end |
| StreamSession.StorageAccept | app/index.jsx:101-104 | a chunk that fits is written right after the stored samples, and the buffer then holds all accepted chunks in order, zeros after them |
| StreamSession.StorageOverflow | app/index.jsx:101-111 | a chunk that does not fit only lengthens `audioBuffer`; the stored samples and the zeros after them stay |
| StreamSession.LogFirstRead | app/index.jsx:94-98 | the first chunk's clock reading is recorded only while none is recorded, and the logs stay consistent |
| StreamSession.LogAccept | app/index.jsx:105-106 | an accepted chunk adds one time offset from the first reading and its metric, keeping the logs aligned with the accepted chunks |
| StreamSession.AlignedTimesBelong | app/index.jsx:71 | under the log invariant, the aligned time entry i is the offset, from the first reading, of the clock reading logged with the chunk whose metric is entry i of the metric log |
| StreamSession.DetectPeaksAligned | app/index.jsx:127-150 | `detectPeaks` with each metric timed by its own chunk's entry. It has the same outcome and peak indices as the as-written detector, and the gap is the difference of the aligned entries. Without a restart it equals the as-written detector |
| StreamSession.AlignedPeakGap | app/index.jsx:105-106 | under the log invariant, the aligned report's peaks are the metrics of two accepted chunks, and its gap is the difference of those chunks' own clock readings |
| StreamSession.RestartMisalignsGap | app/index.jsx:146-148 | after a restart with two earlier chunks, the as-written gap for two taps is 1000 ms, while the tapped chunks' readings are 2500 ms apart, which is the aligned gap |
| StreamSession.Session.constructor | app/index.jsx:20-63 | a zero-filled buffer of 44100·60·10 samples, empty logs, no first reading, not streaming |
| StreamSession.Session.HandleAudioData | app/index.jsx:92-112 | records the first reading once; a chunk `atob` rejects changes nothing else; otherwise the decoded chunk joins `audioBuffer` and is either written at the old buffer length and logged, or rejected without a write or a log entry |
| StreamSession.Session.AppendChunk | app/index.jsx:101-106 | the decoded chunk joins `audioBuffer`; it is copied into `globalAudio` at the old length of `audioBuffer`, with every other entry unchanged, and both logs gain one entry, or, past capacity, nothing is written or logged |
| StreamSession.Session.StartStreaming | app/index.jsx:67-89 | without permission nothing changes; otherwise the metric log is emptied and the flag is raised iff the native start succeeds |
| StreamSession.Session.StopStreaming | app/index.jsx:115-118 | a successful native stop lowers the flag; a failed one keeps it; the logs and buffers are unchanged |
| StreamSession.Session.DetectPeaksAfterSave | app/index.jsx:119-120 | the detection run after the save reports the aligned detection on the logs as they then stand, and changes nothing |
| StreamSession.Session.PeakGapIsClockDifference | app/index.jsx:105 | the as-written gap is the difference of the clock readings at the same two positions of the time log, that is, the `pushTimes` entries at the metric indices |
| StreamSession.Session.PeakGapWithoutRestart | app/index.jsx:146-148 | while the metric log is as long as the time log, the as-written peaks are the metrics of the chunks at the same positions, and the gap is those chunks' clock difference |
| StreamSession.Session.AcceptedChunkInGlobalAudio | app/index.jsx:101-104 | every accepted chunk sits in `globalAudio` at the number of samples accepted before it |

## Left out

- `atob`, the base64 decoding of section 4 of RFC 4648, is not modelled. The decoder starts from the byte string, and a string `atob` rejects is an absent chunk.
- The screens' rendering is not modelled. This covers the chart component, `setChartData`, alerts, console output and router navigation.
- The microphone permission request and the `LiveAudioStream` init, start and stop calls are not modelled. Only their outcome (granted or not, thrown or not) enters the methods.
- The camera, `FileSystem` and `Sharing` (`saveDataToFile`, `shareJsonFile`) are not modelled. Those helpers catch their own errors.
- StreamSession.Session.DetectPeaksAfterSave: the model does not force detection to follow a successful stop. The caller sequences `StopStreaming`, then any `HandleAudioData` calls delivered while the file is saved, then the detection.
- `Blob`, `URL.createObjectURL` and `Audio` playback are not modelled. `EncodeWav` returns the bytes that go into the `Blob`.
- The latency bookkeeping is not modelled. This covers `gap`, `pressedStartTime`, the video/audio timing logs and the countdown timer. Those values are only logged.
- The random fake-chunk interval in app/index.jsx is not modelled. It uses `Math.random`, and it pushes metrics that have no matching time entry.
- `LiveAudioStream.on` is not part of this model. `startStreaming` registers the "data" handler again on every start (app/index.jsx:83), and the model takes each registration to replace the previous handler, so each chunk is handled once.
- React re-creates the component's local arrays on every render. They are modelled as the persistent state of one mounted screen.
- app/index.jsx calls an undefined `RoughMedian`. The model uses `calculateRoughMedian`, as the other screen does.
- app/recordinglive/Index.jsx pushes `new Int16Array(sum)` as the metric. The model pushes the numeric sum, as app/index.jsx does.
- The recording screen's own copies of `handleAudioData`, `startStreaming` and `stopStreaming` are not modelled separately. They repeat the streaming screen's logic with extra timing logs.
- `playAudio` passes the flattened metric list to `encodeWAV`. `EncodeWav` is specified over a sequence of samples only.
- EncodeWav: samples are `Int16` values. Conversion of out-of-range or fractional JavaScript numbers by `setInt16` is not modelled.
- Integers are unbounded. The JavaScript metric is a double, and it is exact while below 2^53, which `AbsSumBounds` keeps it for any realistic chunk.
- The spread `audioBuffer.push(...chunk)` can fail on engine argument-count limits for very large chunks. This is not modelled.
- StreamSession.Session.StartStreaming and StreamSession.Session.StopStreaming require that the flag is down and up respectively. Those are the states in which their buttons are enabled.

## Findings

| source | as written | input that shows it | evidently intended | confidence | as-written member | corrected member |
|---|---|---|---|---|---|---|
| app/index.jsx:146-148 | the gap reads `chunkTimeList` at the metric indices, but `startStreaming` (line 71) empties only `sumChunkList`, so after a restart index i of the metrics is not index i of the times. This assumes the two arrays persist across renders, as the model treats them (they are declared in the component body, lines 59-60), and that each chunk is handled once after the restart (line 83 registers the handler again) | two chunks, a restart, then five chunks with metrics 100, 5000, 100, 6000, 100, with the second chunk read at 1500 and the taps at 2500 and 5000: reported gap 1000 ms instead of 2500 ms | read the time at `chunkTimeList.length - sumChunkList.length + i` | not executed | StreamSession.RestartMisalignsGap | StreamSession.DetectPeaksAligned |
