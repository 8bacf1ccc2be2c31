# TestVideoTranscode: a verified model of the transcode decision and file lifecycle

TestVideoTranscode is an Android app that compresses a picked video before it
is shared. It wraps three engines: LinkedIn LiTr, natario Transcoder and
SiliCompressor. This project models the parts of the app that decide and
clean up, and proves properties of them:

- `Size.scaleTo`, the downscale-only sizing policy, and its older copy
  `VideoTranscoder.scaling`. Exact integer arithmetic replaces the source's
  floats.
- The derived fields of `VideoInfo` and its skip heuristic `isSmallEnough`.
  The older fixed-limit variant nested in `VideoTranscoder` is modelled too.
- The four adapters' `transcodeVideo`. Each one:
  - picks an output size;
  - passes the input through or runs its engine;
  - maps the engine's callbacks to one result or throwable;
  - deletes `outFile` on the skip path and on every exception.
  The Sili adapter also has a temporary-directory lifecycle.
- `ActMain.VM.handleInputUri`, which creates the two temporary files,
  dispatches to the chosen adapter, publishes the result, deletes the
  temporary files that are not the result, and reports success, cancellation
  or error.

The file system is a `FileSystem` object holding the set of paths that exist.
`File.delete()` on a directory that still has entries does nothing, as in
Java. Each engine is an input that says how its run ends. So are the metadata
probe, the clock, and the coroutine's `isActive`.

Modules: one per source file (`Sizes`, `VideoInfos`, `VideoTranscoderLiTr`,
`VideoTranscoder`, `VideoTranscoderNatario`, `VideoTranscoderSili` and
`ActMain`), plus `Results` (Option, Result, throwables), `Files` (the file
system) and `TransformerEngine`, which match no single source file.
`TransformerEngine` holds what the two LiTr adapters share: the
output formats, the listener mapping, and the memoised engine with its
request-id counter. The two LiTr files repeat this code line for line.

The natario engine is configured with fixed constants that do not depend on
the input: `TheVideoStrategy` (at most 540×960, 15 fps, key frame every 10 s,
300 kbps) and `TheAudioStrategy` (mono, 44100 Hz, 60 kbps).

Two properties of the code that are easy to get wrong:

- A file under 500 kB is still transcoded when `scaleTo` changes its size:
  the skip test also requires `outSize == info.size`.
  `VideoTranscoderLiTr.ResizeForcesTranscode` states the rule.
- `scaleTo` is not idempotent on near-degenerate inputs:
  `Sizes.ScaleToNotIdempotent` exhibits (10000,1) → (960,0) → (960,540).
  It is idempotent on every non-degenerate result (`Sizes.ScaleToIdempotent`),
  and a third application never changes the second's result
  (`Sizes.ScaleToSettles`).

The Sili adapter's cleanup as written does not remove its temporary
directory when the compressor left a file in it (see "## Findings").
`VideoTranscoderSili.TranscodeVideoAsWritten` models that code;
`VideoTranscoderSili.TranscodeVideo` is the corrected cleanup, and it is the
one `ActMain` runs.

## Model

| member | source | states |
|---|---|---|
| Sizes.ScaleTo | app/src/main/java/jp/juggler/testvideotranscode/Size.kt:16-45 | degenerate input (an edge below 1) gives exactly (limitLonger, limitShorter); otherwise no output edge exceeds the input edge, the result fits the orientation-matched cap box, and the input comes back unchanged exactly when it already fits that box |
| Sizes.RoundHalfUp | app/src/main/java/jp/juggler/testvideotranscode/Size.kt:33-35 | `trunc(n/d + 0.5)` is the non-negative integer r with 2dr ≤ 2n+d < 2dr+2d |
| Sizes.ClampInactive | app/src/main/java/jp/juggler/testvideotranscode/Size.kt:34-35 | the `min(cap, …)` clamp of the free edge never binds in exact arithmetic |
| Sizes.ScaleToBindingEdge | app/src/main/java/jp/juggler/testvideotranscode/Size.kt:30-42 | when scaling happens, width binds iff w·capH ≥ capW·h; the binding edge equals its cap; the other edge is the input edge scaled by the same factor, rounded half up, so the aspect ratio is kept within half a pixel |
| Sizes.FitsOwnBox | app/src/main/java/jp/juggler/testvideotranscode/Size.kt:24-28 | with longer ≥ shorter, a size that fits either orientation of the box fits the box matched to its own orientation |
| Sizes.ScaleToIdempotent | app/src/main/java/jp/juggler/testvideotranscode/Size.kt:16-45 | a second `scaleTo` leaves every non-degenerate result unchanged |
| Sizes.ScaleToNotIdempotent | app/src/main/java/jp/juggler/testvideotranscode/Size.kt:19-36 | (10000,1) with caps (960,540) gives (960,0), and a second call gives (960,540) |
| Sizes.ScaleToSettles | app/src/main/java/jp/juggler/testvideotranscode/Size.kt:16-45 | a third application of `scaleTo` never changes the second's result |
| VideoInfos.Positive | app/src/main/java/jp/juggler/testvideotranscode/VideoInfo.kt:92 | `takeIf { it > 0 }` keeps exactly the positive values |
| VideoInfos.FromMetadata | app/src/main/java/jp/juggler/testvideotranscode/VideoInfo.kt:77-107 | rotation, width and height default to 0; the duration is present iff the raw value exceeds 100 ms; the frame count iff API ≥ 28 and the value is positive; the sample rate iff API ≥ 31 and the value is positive; the frame ratio is present iff both count and duration are, and then ratio × seconds = count |
| VideoInfos.SaturateToInt | app/src/main/java/jp/juggler/testvideotranscode/VideoInfo.kt:119 | `Float.toInt()` clamps to the bounds of `Int` and keeps in-range values |
| VideoInfos.BitsPerSecond | app/src/main/java/jp/juggler/testvideotranscode/VideoInfo.kt:119 | the result is in [0, Int.MAX], and below Int.MAX it is the truncated fileSize·8000/ms |
| VideoInfos.ActualBps | app/src/main/java/jp/juggler/testvideotranscode/VideoInfo.kt:109-120 | present iff the file length is positive and the duration is present (and at least 0.1 s), and then it equals the truncated bitrate |
| VideoInfos.IsSmallEnough | app/src/main/java/jp/juggler/testvideotranscode/VideoInfo.kt:125-138 | raises a non-cancellation error iff the length is ≤ 0; true under 500_000 bytes; otherwise true iff `actualBps` is present and ≤ limitBps |
| VideoInfos.IsSmallEnoughMonotone | app/src/main/java/jp/juggler/testvideotranscode/VideoInfo.kt:133-137 | raising the limit never turns a small-enough file into one that is not |
| VideoInfos.BitsPerSecondWithin | app/src/main/java/jp/juggler/testvideotranscode/VideoInfo.kt:119 | the truncated bitrate is ≤ limit iff fileSize·8000 < (limit+1)·ms |
| VideoInfos.IsSmallEnoughMeansBitrate | app/src/main/java/jp/juggler/testvideotranscode/VideoInfo.kt:125-138 | for a file of at least 500 kB with a duration, small enough iff its exact average bitrate is below limit+1 |
| VideoInfos.IsSmallEnoughLegacy | app/src/main/java/jp/juggler/testvideotranscode/VideoTranscoder.kt:149-166 | raises an error iff the length is ≤ 0; true under 500_000 bytes; false with no duration at 500_000 bytes or more |
| VideoInfos.LegacyIsInclusiveLimitMinusOne | app/src/main/java/jp/juggler/testvideotranscode/VideoTranscoder.kt:157-165 | the older strict check `bps < 365_024` is the current inclusive check with limit 365_023, on every input |
| TransformerEngine.OutputSampleRate | app/src/main/java/jp/juggler/testvideotranscode/VideoTranscoderLiTr.kt:103-109 | 44100 when the input rate is unknown, otherwise the input rate or 44100, whichever is smaller; never above 44100 |
| TransformerEngine.TargetVideoFormat | app/src/main/java/jp/juggler/testvideotranscode/VideoTranscoderLiTr.kt:90-98 | AVC at exactly the given width and height, with a 10 s I-frame interval and 300 kbps |
| TransformerEngine.TargetAudioFormat | app/src/main/java/jp/juggler/testvideotranscode/VideoTranscoder.kt:228-238 | the audio format carries that sample rate, 2 channels and 64 kbps |
| TransformerEngine.OnEvent | app/src/main/java/jp/juggler/testvideotranscode/VideoTranscoderLiTr.kt:121-158 | onStarted does nothing; onProgress is forwarded; onCompleted resumes with success; onCancelled resumes with a CancellationException; onError resumes with the cause, or an IllegalStateException when the cause is null |
| TransformerEngine.RunOutcome | app/src/main/java/jp/juggler/testvideotranscode/VideoTranscoderLiTr.kt:195-214 | the awaited coroutine succeeds exactly when the engine completed; otherwise it fails with the listener's throwable, or a cancellation when the job was cancelled first |
| TransformerEngine.RunCancellation | app/src/main/java/jp/juggler/testvideotranscode/VideoTranscoderLiTr.kt:140-157 | the outcome is a cancellation exactly when the job or the engine cancelled, or the engine's error cause was a cancellation |
| TransformerEngine.Wrap32 | app/src/main/java/jp/juggler/testvideotranscode/VideoTranscoderLiTr.kt:65 | Kotlin `Int` arithmetic keeps values in range and leaves in-range values unchanged |
| TransformerEngine.Wrap32Succ | app/src/main/java/jp/juggler/testvideotranscode/VideoTranscoderLiTr.kt:197 | incrementing a wrapped counter is wrapping the incremented count |
| TransformerEngine.RequestIdWraps | app/src/main/java/jp/juggler/testvideotranscode/VideoTranscoderLiTr.kt:197 | `incrementAndGet` past `Int.MAX_VALUE` yields `Int.MIN_VALUE` |
| TransformerEngine.TransformerSingleton.constructor | app/src/main/java/jp/juggler/testvideotranscode/VideoTranscoderLiTr.kt:64-69 | no engine is stored, no id has been issued, and the counter invariant holds |
| TransformerEngine.TransformerSingleton.PrepareTransformer | app/src/main/java/jp/juggler/testvideotranscode/VideoTranscoderLiTr.kt:75-84 | a new engine is created only when none is stored; otherwise the stored one is returned; afterwards the returned engine is the stored one |
| TransformerEngine.TransformerSingleton.NextRequestId | app/src/main/java/jp/juggler/testvideotranscode/VideoTranscoderLiTr.kt:197 | the n-th id is wrap32(n), appended to the issued ids; while fewer than Int.MAX_VALUE ids have been issued it is strictly greater than every earlier id |
| VideoTranscoderLiTr.Decide | app/src/main/java/jp/juggler/testvideotranscode/VideoTranscoderLiTr.kt:184-192 | fails iff the file length is ≤ 0; skips iff `isSmallEnough(1_800_000)` and `scaleTo(960, 540)` returns the input size; otherwise transcodes to `scaleTo(960, 540)` |
| VideoTranscoderLiTr.SkipMeansAlreadyFits | app/src/main/java/jp/juggler/testvideotranscode/VideoTranscoderLiTr.kt:188-192 | a skipped input is non-degenerate, fits 960×540 in its own orientation, and is under 500 kB or averages below 1_800_001 bps |
| VideoTranscoderLiTr.TranscodeTargetFits | app/src/main/java/jp/juggler/testvideotranscode/VideoTranscoderLiTr.kt:184 | a transcode target fits 960×540 or 540×960 and is never larger than a non-degenerate input |
| VideoTranscoderLiTr.ResizeForcesTranscode | app/src/main/java/jp/juggler/testvideotranscode/VideoTranscoderLiTr.kt:188-192 | a size change always transcodes whatever the bitrate; a file under 500 kB is skipped exactly when its size is unchanged |
| VideoTranscoderLiTr.FullHdClipIsTranscoded | app/src/main/java/jp/juggler/testvideotranscode/VideoTranscoderLiTr.kt:184-192 | a 10 s 1920×1080 clip of 10 MB is transcoded to 960×540 |
| VideoTranscoderLiTr.SmallClipIsSkipped | app/src/main/java/jp/juggler/testvideotranscode/VideoTranscoderLiTr.kt:184-192 | a 2 s 320×240 clip of 400 kB is passed through |
| VideoTranscoderLiTr.RequestWithinLimits | app/src/main/java/jp/juggler/testvideotranscode/VideoTranscoderLiTr.kt:196-212 | the engine is asked for AVC within the 960×540 box in either orientation at 300 kbps, and stereo AAC at 64 kbps at no more than 44100 Hz and no more than the input's rate |
| VideoTranscoderLiTr.TranscodeResultCases | app/src/main/java/jp/juggler/testvideotranscode/VideoTranscoderLiTr.kt:178-221 | the result is `inFile` iff the input was skipped, and `outFile` iff the engine ran and completed; a probe failure, a size-check failure (never a cancellation) and an engine failure are each rethrown unchanged; it is a cancellation iff the probe's error or the engine run was one |
| VideoTranscoderLiTr.TranscodeVideo | app/src/main/java/jp/juggler/testvideotranscode/VideoTranscoderLiTr.kt:171-222 | returns or throws exactly that result; afterwards `outFile` exists only after a completed transcode (skip and every throwable delete it) and nothing else changes; the engine and the request counter are touched only when a transcode starts, and a stored engine is reused; the engine is called exactly when a transcode starts, with the next request id, `targetVideoFormat` of the scaled size and `targetAudioFormat` of the input's sample rate |
| VideoTranscoder.Scaling | app/src/main/java/jp/juggler/testvideotranscode/VideoTranscoder.kt:182-210 | the same policy with the 640×360 cap: degenerate input gives (640,360); otherwise no upscaling, fits the orientation-matched box, and unchanged iff it already fits |
| VideoTranscoder.Decide | app/src/main/java/jp/juggler/testvideotranscode/VideoTranscoder.kt:305-317 | fails iff the file length is ≤ 0; skips iff the strict legacy check holds and `scaling` returns the input size; otherwise transcodes to `scaling(size)` |
| VideoTranscoder.SkipMeansBelowLegacyLimit | app/src/main/java/jp/juggler/testvideotranscode/VideoTranscoder.kt:149-166 | a skipped input fits 640×360 in its own orientation and is under 500 kB or averages strictly below 365_024 bps |
| VideoTranscoder.RequestWithinLimits | app/src/main/java/jp/juggler/testvideotranscode/VideoTranscoder.kt:320-337 | the engine is asked for AVC within the 640×360 box in either orientation at 300 kbps, and audio at no more than 44100 Hz |
| VideoTranscoder.TranscodeResultCases | app/src/main/java/jp/juggler/testvideotranscode/VideoTranscoder.kt:303-348 | case by case: a probe failure is rethrown; a size-check failure is rethrown and is never a cancellation; a skip returns the input's own info; a completed transcode returns the output's probe; an engine failure is rethrown unchanged; the result is a cancellation iff the probe's, the engine's or the output probe's throwable was one |
| VideoTranscoder.TranscodeVideo | app/src/main/java/jp/juggler/testvideotranscode/VideoTranscoder.kt:296-349 | returns or throws exactly that result; `outFile` survives only a completed transcode whose output could be probed; the engine is untouched on skip and error paths before it starts, and a stored engine is reused; the engine is called exactly when a transcode starts, with the next request id and the formats for the scaled size |
| VideoTranscoderNatario.SelectResult | app/src/main/java/jp/juggler/testvideotranscode/VideoTranscoderNatario.kt:78-85 | `SUCCESS_TRANSCODED` selects `outFile`; any other success code selects `inFile` |
| VideoTranscoderNatario.FileNotFoundError | app/src/main/java/jp/juggler/testvideotranscode/VideoTranscoderNatario.kt:31 | opening a missing input throws a FileNotFoundException, which is not a cancellation |
| VideoTranscoderNatario.TranscodeResultCases | app/src/main/java/jp/juggler/testvideotranscode/VideoTranscoderNatario.kt:78-93 | the result is `outFile` iff the input opened and the code was `SUCCESS_TRANSCODED`; `inFile` iff the input opened and the code was another success code; an engine failure is rethrown unchanged; a cancellation iff the engine or the caller cancelled, or the engine's exception was one |
| VideoTranscoderNatario.ProgressChannel.constructor | app/src/main/java/jp/juggler/testvideotranscode/VideoTranscoderNatario.kt:33-34 | a new channel is open, empty, and its sender is running |
| VideoTranscoderNatario.ProgressChannel.TrySend | app/src/main/java/jp/juggler/testvideotranscode/VideoTranscoderNatario.kt:72 | an open conflated channel keeps only the newest value; a closed one refuses it and keeps its state |
| VideoTranscoderNatario.ProgressChannel.Close | app/src/main/java/jp/juggler/testvideotranscode/VideoTranscoderNatario.kt:98 | the channel is closed afterwards |
| VideoTranscoderNatario.ProgressChannel.CancelSender | app/src/main/java/jp/juggler/testvideotranscode/VideoTranscoderNatario.kt:99 | the sender is stopped when `cancelAndJoin` returns |
| VideoTranscoderNatario.ProgressChannel.OnTranscodeProgress | app/src/main/java/jp/juggler/testvideotranscode/VideoTranscoderNatario.kt:71-76 | a progress report never fails, whatever `trySend` answers; it changes only the pending value |
| VideoTranscoderNatario.TranscodeVideo | app/src/main/java/jp/juggler/testvideotranscode/VideoTranscoderNatario.kt:25-109 | returns or throws exactly that result; `outFile` exists afterwards exactly when it is the result; once the input is open, the channel ends closed and the sender stopped on every path, and the engine writes `outFile` with the fixed strategies whatever the input |
| VideoTranscoderSili.TempDir | app/src/main/java/jp/juggler/testvideotranscode/VideoTranscoderSili.kt:27-30 | the temporary directory lies in `outFile`'s parent and is absent exactly when `outFile` has no parent |
| VideoTranscoderSili.CompressRequestFor | app/src/main/java/jp/juggler/testvideotranscode/VideoTranscoderSili.kt:32-46 | the compressor is asked to write `inFile` into the temporary directory at 300 kbps and at a size within the 960×540 box in either orientation, never larger than a non-degenerate input, and equal to it exactly when it already fits |
| VideoTranscoderSili.MapError | app/src/main/java/jp/juggler/testvideotranscode/VideoTranscoderSili.kt:48-53 | an InterruptedException becomes CancellationException("interrupted.") with it as the cause; any other throwable passes through unchanged |
| VideoTranscoderSili.MapErrorCancellation | app/src/main/java/jp/juggler/testvideotranscode/VideoTranscoderSili.kt:48-53 | the mapped throwable is a cancellation iff it was an interrupt or already a cancellation |
| VideoTranscoderSili.TranscodeResultCases | app/src/main/java/jp/juggler/testvideotranscode/VideoTranscoderSili.kt:26-72 | only `outFile` is ever returned, and only when the compressor finished while the coroutine was still active; the result is a cancellation iff an interrupt, a cancellation, a late cancellation or the probe's error caused it |
| VideoTranscoderSili.PlainDeleteKeepsTempDir | app/src/main/java/jp/juggler/testvideotranscode/VideoTranscoderSili.kt:73-75 | as written, `tempDir?.delete()` leaves the temporary directory in place whenever the compressor left a file in it |
| VideoTranscoderSili.TempDirLeftBehindExamples | app/src/main/java/jp/juggler/testvideotranscode/VideoTranscoderSili.kt:48-65 | a late cancellation and an interrupt with partial output both leave a file in the temporary directory |
| VideoTranscoderSili.RunCompressor | app/src/main/java/jp/juggler/testvideotranscode/VideoTranscoderSili.kt:32-72 | returns or throws exactly that result; every probed input is handed to the compressor with `CompressRequestFor`; on success the compressor's file has become `outFile`; on failure `outFile` is gone and what the compressor left stays in the temporary directory |
| VideoTranscoderSili.TranscodeVideoAsWritten | app/src/main/java/jp/juggler/testvideotranscode/VideoTranscoderSili.kt:19-76 | the adapter as written: the same result and request; the temporary directory and the compressor's leftovers survive whenever it left any; with nothing left behind an initially empty directory is removed; nothing else changes |
| VideoTranscoderSili.TranscodeVideo | app/src/main/java/jp/juggler/testvideotranscode/VideoTranscoderSili.kt:19-76 | the adapter with its cleanup corrected to a recursive delete: the same result and request; `outFile` exists afterwards exactly on success; the temporary directory and everything in it are gone on every path; nothing else changes |
| Files.ParentFile | app/src/main/java/jp/juggler/testvideotranscode/VideoTranscoderSili.kt:27 | a parent, when there is one, is strictly shallower than the path |
| Files.AfterDelete | app/src/main/java/jp/juggler/testvideotranscode/VideoTranscoderLiTr.kt:219 | `File.delete()` removes the path when nothing lies beneath it, and changes nothing otherwise |
| Files.AfterDeleteTree | app/src/main/java/jp/juggler/testvideotranscode/VideoTranscoderSili.kt:24 | the recursive delete used only by the corrected Sili cleanup (the source calls the non-recursive `delete()`): removes the path and everything beneath it, and keeps every other path |
| Files.FileSystem.Create | app/src/main/java/jp/juggler/testvideotranscode/ActMain.kt:63-64 | the path exists afterwards and nothing else changes |
| Files.FileSystem.Mkdirs | app/src/main/java/jp/juggler/testvideotranscode/VideoTranscoderSili.kt:29 | the directory exists afterwards and nothing else changes |
| Files.FileSystem.Delete | app/src/main/java/jp/juggler/testvideotranscode/VideoTranscoderNatario.kt:107 | reports success iff the path existed with nothing beneath it; the new state is `AfterDelete` |
| Files.FileSystem.DeleteTree | app/src/main/java/jp/juggler/testvideotranscode/VideoTranscoderSili.kt:24 | the recursive delete used only by the corrected Sili cleanup (the source calls the non-recursive `delete()`); the new state is `AfterDeleteTree` |
| Files.FileSystem.RenameTo | app/src/main/java/jp/juggler/testvideotranscode/VideoTranscoderSili.kt:67 | succeeds iff the source exists, and then the source is replaced by the destination |
| ActMain.FailureText | app/src/main/java/jp/juggler/testvideotranscode/ActMain.kt:121-127 | the "cancelled" text iff the throwable is a cancellation; otherwise the class name, a space and the message ("null" when absent) |
| ActMain.ProgressPercent | app/src/main/java/jp/juggler/testvideotranscode/ActMain.kt:81 | the percentage is an `Int`: `ratio·100 + 0.5` truncated toward zero and saturated at the bounds of `Int`; its value is pinned only for ratios in [0, 1], by `ProgressPercentRounds` |
| ActMain.ProgressPercentRounds | app/src/main/java/jp/juggler/testvideotranscode/ActMain.kt:81 | for a ratio in [0, 1] the percentage is in 0..100 and is ratio·100 rounded half up |
| ActMain.ProgressPercentMonotone | app/src/main/java/jp/juggler/testvideotranscode/ActMain.kt:90 | a larger ratio never shows a smaller percentage |
| ActMain.JobResultIsATempFile | app/src/main/java/jp/juggler/testvideotranscode/ActMain.kt:73-101 | the published file is always one of the two temporary files, and `inFile` only from the LiTr or natario adapter; an unknown button id is an error, not a cancellation |
| ActMain.RunAdapter | app/src/main/java/jp/juggler/testvideotranscode/ActMain.kt:72-101 | the dispatch returns or throws what the chosen adapter does (the Sili adapter with its corrected cleanup); every adapter keeps `inFile`, adds nothing but `outFile`, removes nothing but `outFile` (and, for Sili, the temporary directory and what lies beneath it), and returns a file that exists |
| ActMain.DeleteTempFiles | app/src/main/java/jp/juggler/testvideotranscode/ActMain.kt:112-118 | each temporary file survives exactly when it existed and is the published one; nothing else changes |
| ActMain.VM.constructor | app/src/main/java/jp/juggler/testvideotranscode/ActMain.kt:43-48 | for a fresh `SavedStateHandle` (no saved values), all view-model fields start empty and the progress at 0 |
| ActMain.VM.OnProgress | app/src/main/java/jp/juggler/testvideotranscode/ActMain.kt:78-84 | the progress and the log line show the rounded percentage |
| ActMain.VM.HandleInputUri | app/src/main/java/jp/juggler/testvideotranscode/ActMain.kt:54-131 | `compressedPath` is set exactly when the job succeeded, and then to the adapter's result; the log line is the finished line or the failure text; each temporary file survives exactly when it is `compressedPath` (so a failure or cancellation deletes both); no other file is left behind, with the Sili adapter's cleanup corrected; every other file that existed survives, except the Sili temporary directory and what lies beneath it; `transcodeTask` ends null |

## Left out

- The metadata retriever (`File.videoInfo`) is not modelled: its parsed answers, or its failure, are inputs, and so is `file.length()`.
- The engines are not modelled: LiTr `MediaTransformer.transform`, natario `Transcoder` and `SiliCompressor.compressVideo` are opaque libraries. How each run ends is an input. An engine that runs is taken to write `outFile` (or, for Sili, a file in the temporary directory). `MediaFormat` and the strategy builders are plain records.
- Coroutine machinery is not modelled: dispatchers, `suspendCancellableCoroutine`, `invokeOnCancellation`, `async` and `await`. The same holds for threads and `interrupt`, and for the `delay(1000)` throttle and receive loop of the natario progress sender. A cancellation is an outcome of the run. So a cancellation of `transcodeTask` outside an engine run cannot be expressed. For example, a cancel during the LiTr skip path (VideoTranscoderLiTr.kt:189-191) still makes `task.await()` throw a `CancellationException` in the source, so both temporary files are deleted and the cancelled text is shown; the model publishes `inFile` instead.
- `ProgressChannel` models only what the adapter does to the channel: `trySend`, `close` and `cancelAndJoin`.
- The double-checked locking in `prepareTransformer` is not modelled; only its sequential memoisation is.
- Float32 rounding is not modelled. Aspect ratios, scales, durations and bitrates use exact integer or rational arithmetic. Where Float32 would round a tie or a near-tie the other way, the model may differ by one pixel or one bit per second.
- `actualBps` is computed lazily and memoised, so it reads `file.length()` only once. The model uses one file length for both reads.
- `dumpCodec` is left out: it only logs diagnostics.
- The content-resolver stream copy is left out; its failure is an input.
- `openOutput`, the activity, `Utils.kt`, `ActivityResultHandler.kt` and `LogTag.kt` are UI glue and logging, and are not part of this model.
- `File.createTempFile` failures are left out. The two temporary files are taken to be fresh, distinct siblings.
- Button ids are stand-ins. `R.id.*` are generated resource ids, and only their distinctness matters.
- Log output is not modelled. Exception messages omit their dynamic parts: the canonical path, the uri and the button id. The finished log line omits the elapsed time.
- ActMain.VM.HandleInputUri: the progress callbacks that run during the transcode are not replayed, so the modelled final `progressPercent` is the 0 set on entry. `OnProgress` models each callback on its own.
- VideoTranscoderSili.TranscodeVideo: `mkdirs` is modelled as creating only the temporary directory, because the parent already holds `outFile`. The method assumes `outFile` is not itself named like the temporary directory, which the caller's "output…" names guarantee.
- ActMain.RunAdapter: runs the Sili adapter with its cleanup corrected (`VideoTranscoderSili.TranscodeVideo`). With the cleanup as written (`VideoTranscoderSili.TranscodeVideoAsWritten`), a Sili run that leaves a file in the temporary directory also leaves that directory and the file in the cache directory, so "adds nothing but `outFile`" does not hold of the code as written.
- ActMain.VM.HandleInputUri: "no other file is left behind" rests on the corrected Sili cleanup, for the same reason; with the cleanup as written a late cancellation or an interrupt with partial output leaves `temp<millis>/` and its file in the cache directory.
- TransformerEngine.TransformerSingleton.NextRequestId: "strictly greater than every earlier id" is stated only for the first `Int.MAX_VALUE` calls. After that the counter wraps to `Int.MIN_VALUE`, as `RequestIdWraps` shows. The id's conversion to a string is not modelled.

## Findings

| source | as written | input that shows it | evidently intended | confidence | as-written member | corrected member |
|---|---|---|---|---|---|---|
| app/src/main/java/jp/juggler/testvideotranscode/VideoTranscoderSili.kt:73-75 | the `finally` block cleans up with `tempDir?.delete()`, a non-recursive `File.delete()` that does nothing to a directory that still holds a file | a cancellation that arrives after SiliCompressor returned `VIDEO_1.mp4` (`isActive` false), or an interrupt that leaves partial output: the file is never renamed away, so the temporary directory and the file stay in the cache directory | the temporary directory is removed with its contents on every exit path, as the comment at line 24 says it exists to allow | medium, not executed | VideoTranscoderSili.PlainDeleteKeepsTempDir | VideoTranscoderSili.TranscodeVideo |
