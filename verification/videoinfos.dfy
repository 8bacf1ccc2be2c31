/** The derived fields of `VideoInfo` and its skip heuristic.
    The metadata retriever is not modelled: its answers, already parsed
    (`toIntOrNull` / `toLongOrNull`), are the inputs. The duration is kept in
    whole milliseconds, so "more than 0.1 s" is "more than 100 ms" and every
    ratio over the duration is exact. */
module VideoInfos {
  import opened Results
  import opened Sizes

  /** The retriever's answers for one file, absent when unreadable. */
  datatype RawMetadata = RawMetadata(
    mimeType: Option<string>,
    rotation: Option<int>,
    width: Option<int>,
    height: Option<int>,
    bitrate: Option<int>,
    durationMs: Option<int>,
    frameCount: Option<int>,
    sampleRate: Option<int>)

  datatype VideoInfo = VideoInfo(
    mimeType: Option<string>,
    rotation: int,
    size: Size,
    bitrate: Option<int>,
    durationMs: Option<int>,      // the `duration` field, in milliseconds
    frameCount: Option<int>,
    frameRatio: Option<real>,     // frames per second
    audioSampleRate: Option<int>)

  /** The duration in seconds, as the source's `duration` holds it. */
  function Seconds(ms: int): (sec: real)
    ensures sec * 1000.0 == ms as real
  {
    ms as real / 1000.0
  }

  /** What every probed `VideoInfo` satisfies. */
  predicate WellFormed(v: VideoInfo) {
    (v.durationMs.Some? ==> v.durationMs.value > 100)
    && (v.frameCount.Some? ==> v.frameCount.value > 0)
    && (v.audioSampleRate.Some? ==> v.audioSampleRate.value > 0)
    && (v.frameRatio.Some? <==> v.frameCount.Some? && v.durationMs.Some?)
    && (v.frameRatio.Some? ==>
          v.frameRatio.value * Seconds(v.durationMs.value) == v.frameCount.value as real)
  }

  /** Kotlin's `takeIf { it > 0 }` */
  function Positive(x: Option<int>): (r: Option<int>)
    ensures r.Some? <==> x.Some? && x.value > 0
    ensures r.Some? ==> r == x
  {
    if x.Some? && x.value > 0 then x else None
  }

  /** The `VideoInfo` constructor: derives every field from the retriever's
      answers on a device running API level `sdkInt` (frame count needs 28,
      sample rate 31). */
  function FromMetadata(raw: RawMetadata, sdkInt: int): (v: VideoInfo)
    ensures WellFormed(v)
    ensures v.mimeType == raw.mimeType && v.bitrate == raw.bitrate
    ensures v.rotation == raw.rotation.GetOr(0)
    ensures v.size == Size(raw.width.GetOr(0), raw.height.GetOr(0))
    ensures v.durationMs.Some? <==> raw.durationMs.Some? && raw.durationMs.value > 100
    ensures v.durationMs.Some? ==> v.durationMs == raw.durationMs
    ensures v.frameCount.Some? <==> sdkInt >= 28 && raw.frameCount.Some? && raw.frameCount.value > 0
    ensures v.frameCount.Some? ==> v.frameCount == raw.frameCount
    ensures v.audioSampleRate.Some? <==> sdkInt >= 31 && raw.sampleRate.Some? && raw.sampleRate.value > 0
    ensures v.audioSampleRate.Some? ==> v.audioSampleRate == raw.sampleRate
  {
    var duration := if raw.durationMs.Some? && raw.durationMs.value > 100 then raw.durationMs else None;
    var frameCount := if sdkInt >= 28 then Positive(raw.frameCount) else None;
    var frameRatio :=
      if frameCount.Some? && duration.Some?
      then Some(frameCount.value as real / Seconds(duration.value))
      else None;
    VideoInfo(
      raw.mimeType,
      raw.rotation.GetOr(0),
      Size(raw.width.GetOr(0), raw.height.GetOr(0)),
      raw.bitrate,
      duration,
      frameCount,
      frameRatio,
      if sdkInt >= 31 then Positive(raw.sampleRate) else None)
  }

  /** Float-to-Int conversion saturates at the bounds of `Int`. */
  function SaturateToInt(x: int): (r: int)
    ensures IntMin <= r <= IntMax
    ensures IntMin <= x <= IntMax ==> r == x
  {
    if x > IntMax then IntMax else if x < IntMin then IntMin else x
  }

  /** Bits per second of a file of `fileSize` bytes lasting `ms` milliseconds,
      truncated: fileSize / (ms / 1000) * 8. */
  function BitsPerSecond(fileSize: int, ms: int): (bps: int)
    requires fileSize > 0 && ms > 0
    ensures 0 <= bps <= IntMax
    ensures bps < IntMax ==> bps * ms <= fileSize * 8000 < (bps + 1) * ms
  {
    SaturateToInt(fileSize * 8000 / ms)
  }

  /** `actualBps`: absent when the file length is not positive or the
      duration is absent (or, unreachably for a probed info, under 0.1 s). */
  function ActualBps(v: VideoInfo, fileSize: int): (r: Option<int>)
    ensures r.Some? <==> fileSize > 0 && v.durationMs.Some? && v.durationMs.value >= 100
    ensures r.Some? ==> r.value == BitsPerSecond(fileSize, v.durationMs.value)
  {
    if fileSize <= 0 then None
    else if v.durationMs.None? || v.durationMs.value < 100 then None
    else Some(BitsPerSecond(fileSize, v.durationMs.value))
  }

  /** Files below this many bytes are small enough whatever their bitrate. */
  const SmallFileBytes: int := 500_000

  /** `isSmallEnough(limitBps)`; `fileSize` is `file.length()` at the time of
      the call. */
  function IsSmallEnough(v: VideoInfo, fileSize: int, limitBps: int): (r: Result<bool>)
    ensures r.Failure? <==> fileSize <= 0
    ensures r.Failure? ==> !IsCancellation(r.error)
    ensures 0 < fileSize < SmallFileBytes ==> r == Success(true)
    ensures fileSize >= SmallFileBytes ==>
      r == Success(ActualBps(v, fileSize).Some? && ActualBps(v, fileSize).value <= limitBps)
  {
    if fileSize <= 0 then Failure(Error("too small file."))
    else if fileSize < SmallFileBytes then Success(true)
    else
      match ActualBps(v, fileSize)
      case None => Success(false)
      case Some(bps) => Success(bps <= limitBps)
  }

  /** Raising the limit never turns a small-enough file into a too-large one. */
  lemma IsSmallEnoughMonotone(v: VideoInfo, fileSize: int, limit1: int, limit2: int)
    requires limit1 <= limit2
    requires IsSmallEnough(v, fileSize, limit1) == Success(true)
    ensures IsSmallEnough(v, fileSize, limit2) == Success(true)
  {
  }

  /** The older fixed limit: video 300 kbps + audio 64 kbps + 1024. */
  const LegacyLimitBps: int := 300_000 + 64_000 + 1024

  /** The older `VideoInfo.isSmallEnough` property nested in
      `VideoTranscoder`: the same shape with the strict `<` against the
      fixed limit. */
  function IsSmallEnoughLegacy(v: VideoInfo, fileSize: int): (r: Result<bool>)
    ensures r.Failure? <==> fileSize <= 0
    ensures 0 < fileSize < SmallFileBytes ==> r == Success(true)
    ensures fileSize >= SmallFileBytes && v.durationMs.None? ==> r == Success(false)
  {
    if fileSize <= 0 then Failure(Error("too small file."))
    else if fileSize < SmallFileBytes then Success(true)
    else if v.durationMs.None? || v.durationMs.value < 100 then Success(false)
    else Success(BitsPerSecond(fileSize, v.durationMs.value) < LegacyLimitBps)
  }

  /** The strict legacy check is the current check with the inclusive limit
      one below the legacy sum, 365_023. */
  lemma LegacyIsInclusiveLimitMinusOne(v: VideoInfo, fileSize: int)
    ensures IsSmallEnoughLegacy(v, fileSize) == IsSmallEnough(v, fileSize, LegacyLimitBps - 1)
  {
  }

  lemma MulMonotone(x: int, y: int, k: int)
    requires x <= y && k >= 0
    ensures x * k <= y * k
  {
  }

  /** The truncated bitrate is within an inclusive limit exactly when the
      exact average bitrate, fileSize * 8000 / ms, is below limit + 1. */
  lemma {:induction false} BitsPerSecondWithin(fileSize: int, ms: int, limitBps: int)
    requires fileSize > 0 && ms > 0 && 0 <= limitBps < IntMax
    ensures BitsPerSecond(fileSize, ms) <= limitBps <==> fileSize * 8000 < (limitBps + 1) * ms
  {
    var q := fileSize * 8000 / ms;
    assert q * ms <= fileSize * 8000 < (q + 1) * ms;
    if q <= limitBps {
      MulMonotone(q + 1, limitBps + 1, ms);
    } else {
      MulMonotone(limitBps + 1, q, ms);
    }
  }

  /** For a file of at least 500 kB with a known duration, `isSmallEnough`
      holds exactly when the file's average bitrate is below limitBps + 1. */
  lemma {:induction false} IsSmallEnoughMeansBitrate(v: VideoInfo, fileSize: int, limitBps: int)
    requires WellFormed(v) && v.durationMs.Some?
    requires fileSize >= SmallFileBytes && 0 <= limitBps < IntMax
    ensures IsSmallEnough(v, fileSize, limitBps) == Success(true)
      <==> fileSize * 8000 < (limitBps + 1) * v.durationMs.value
  {
    BitsPerSecondWithin(fileSize, v.durationMs.value, limitBps);
  }
}
