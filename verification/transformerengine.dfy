/** What the two LiTr adapters (`VideoTranscoder` and `VideoTranscoderLiTr`)
    share, written once: the output formats, the translation of the
    engine's listener callbacks into one result, and the process-wide
    engine instance with its request-id counter. */
module TransformerEngine {
  import opened Results
  import opened Sizes

  const TargetVideoBitrate: int := 300_000
  const TargetAudioBitrate: int := 64_000
  const TargetIFrameInterval: int := 10
  const TargetAudioSampleRate: int := 44100
  const TargetAudioChannels: int := 2

  datatype VideoFormat = VideoFormat(mime: string, width: int, height: int, iFrameInterval: int, bitRate: int)
  datatype AudioFormat = AudioFormat(mime: string, sampleRate: int, channelCount: int, bitRate: int)

  /** `targetVideoFormat(outSize)`: AVC at the chosen size. */
  function TargetVideoFormat(outSize: Size): (f: VideoFormat)
    ensures f.width == outSize.w && f.height == outSize.h
    ensures f.mime == "video/avc" && f.iFrameInterval == TargetIFrameInterval && f.bitRate == TargetVideoBitrate
  {
    VideoFormat("video/avc", outSize.w, outSize.h, TargetIFrameInterval, TargetVideoBitrate)
  }

  /** The output sample rate: the input's rate capped at 44100 Hz, or 44100 Hz
      when the input's rate is unknown. */
  function OutputSampleRate(inRate: Option<int>): (r: int)
    ensures r <= TargetAudioSampleRate
    ensures inRate.None? ==> r == TargetAudioSampleRate
    ensures inRate.Some? ==> r <= inRate.value && (r == inRate.value || r == TargetAudioSampleRate)
    ensures (inRate.None? || inRate.value > 0) ==> r > 0
  {
    match inRate
    case None => TargetAudioSampleRate
    case Some(rate) => Min(rate, TargetAudioSampleRate)
  }

  /** `targetAudioFormat(inAudioSampleRate)`: stereo AAC at 64 kbps. */
  function TargetAudioFormat(inRate: Option<int>): (f: AudioFormat)
    ensures f.sampleRate == OutputSampleRate(inRate)
    ensures f.channelCount == TargetAudioChannels && f.bitRate == TargetAudioBitrate
  {
    AudioFormat("audio/mp4a-latm", OutputSampleRate(inRate), TargetAudioChannels, TargetAudioBitrate)
  }

  /** What `mediaTransformer.transform` is handed besides the files and the
      listener: the request id (its `toString()` is not modelled) and the two
      track formats. */
  datatype TransformRequest = TransformRequest(requestId: int, video: VideoFormat, audio: AudioFormat)

  /** The callbacks of the engine's `TransformationListener`. */
  datatype ListenerEvent =
    | Started
    | Progress(progress: real)
    | Completed
    | Cancelled
    | Error(cause: Option<Throwable>)

  /** What the listener does with a callback: nothing, hand the progress to
      the caller's `onProgress`, or resume the waiting coroutine. */
  datatype ListenerAction = Ignore | ForwardProgress(progress: real) | Resume(outcome: Outcome)

  /** `resumeListener(cont, onProgress)` */
  function OnEvent(e: ListenerEvent): (a: ListenerAction)
    ensures a.Resume? <==> e.Completed? || e.Cancelled? || e.Error?
    ensures a.Ignore? <==> e.Started?
    ensures e.Progress? ==> a == ForwardProgress(e.progress)
    ensures e.Completed? ==> a == Resume(Pass)
    ensures e.Cancelled? ==> a.Resume? && a.outcome.Fail? && IsCancellation(a.outcome.error)
    ensures e.Error? && e.cause.Some? ==> a == Resume(Fail(e.cause.value))
    ensures e.Error? && e.cause.None? ==>
      a.Resume? && a.outcome.Fail? && a.outcome.error.kind == IllegalState
  {
    match e
    case Started => Ignore
    case Progress(p) => ForwardProgress(p)
    case Completed => Resume(Pass)
    case Cancelled => Resume(Fail(CancellationException("transcode cancelled.", None)))
    case Error(cause) =>
      Resume(Fail(match cause
        case Some(c) => c
        case None => Throwable(IllegalState, Some("no error information."), None)))
  }

  /** How a transform ends, as the waiting coroutine sees it: the engine's
      final callback, or the caller cancelling the coroutine first. */
  datatype Run = EndsWith(event: ListenerEvent) | JobCancelled

  predicate Terminal(e: ListenerEvent) {
    e.Completed? || e.Cancelled? || e.Error?
  }

  /** The value or exception `suspendCancellableCoroutine` gives back. */
  function RunOutcome(run: Run): (o: Outcome)
    requires run.EndsWith? ==> Terminal(run.event)
    ensures o.Pass? <==> run == EndsWith(Completed)
    ensures run.EndsWith? ==> OnEvent(run.event) == Resume(o)
  {
    match run
    case JobCancelled => Fail(CancellationException("Job was cancelled", None))
    case EndsWith(e) => OnEvent(e).outcome
  }

  /** Cancellation stays distinct from failure: the coroutine ends in a
      cancellation exactly when the engine or the caller cancelled, or the
      engine's own error was one. */
  lemma {:induction false} RunCancellation(run: Run)
    requires run.EndsWith? ==> Terminal(run.event)
    ensures var o := RunOutcome(run);
      (o.Fail? && IsCancellation(o.error)) <==>
        (run.JobCancelled? || run.event.Cancelled?
         || (run.event.Error? && run.event.cause.Some? && IsCancellation(run.event.cause.value)))
  {
    if run.EndsWith? {
      var a := OnEvent(run.event);
      assert a.Resume?;
    }
  }

  /** The adapter's decision before any engine work: pass the input through,
      or transcode it to `outSize`. */
  datatype Decision = Skip | Transcode(outSize: Size)

  /** Kotlin `Int` arithmetic: x reduced into [IntMin, IntMax] modulo 2^32. */
  function Wrap32(x: int): (r: int)
    ensures IntMin <= r <= IntMax
    ensures IntMin <= x <= IntMax ==> r == x
  {
    (x - IntMin) % 0x1_0000_0000 + IntMin
  }

  lemma Wrap32Succ(x: int)
    ensures Wrap32(Wrap32(x) + 1) == Wrap32(x + 1)
  {
  }

  /** `incrementAndGet` past `Int.MAX_VALUE` wraps to `Int.MIN_VALUE`. */
  lemma RequestIdWraps()
    ensures Wrap32(IntMax + 1) == IntMin
  {
  }

  /** The engine object; construction is expensive, so one is kept. */
  class MediaTransformer {
    constructor ()
    {
    }
  }

  /** The state of a LiTr adapter object: the memoised engine and the
      request-id counter. `issued` records every id handed out so far. */
  class TransformerSingleton {
    var transformerNullable: MediaTransformer?
    var requestIdSeed: int
    ghost var issued: seq<int>

    ghost predicate Valid()
      reads this
    {
      requestIdSeed == Wrap32(|issued|)
      && forall k :: 0 <= k < |issued| ==> issued[k] == Wrap32(k + 1)
    }

    constructor ()
      ensures Valid() && transformerNullable == null && issued == []
    {
      transformerNullable := null;
      requestIdSeed := 0;
      issued := [];
    }

    /** `prepareTransformer(context)`: creates the engine only when none is
        stored, and hands back the stored one otherwise. */
    method PrepareTransformer() returns (t: MediaTransformer)
      modifies this`transformerNullable
      ensures old(transformerNullable) != null ==> t == old(transformerNullable)
      ensures old(transformerNullable) == null ==> fresh(t)
      ensures transformerNullable == t
    {
      if transformerNullable != null {
        return transformerNullable;
      }
      t := new MediaTransformer();
      transformerNullable := t;
    }

    /** `requestIdSeed.incrementAndGet()`: every id is larger than all the
        ids before it until the counter passes `Int.MAX_VALUE`. */
    method NextRequestId() returns (id: int)
      requires Valid()
      modifies this`requestIdSeed, this`issued
      ensures Valid() && issued == old(issued) + [id]
      ensures id == Wrap32(|old(issued)| + 1)
      ensures |old(issued)| < IntMax ==> forall k :: 0 <= k < |old(issued)| ==> old(issued)[k] < id
    {
      Wrap32Succ(|issued|);
      requestIdSeed := Wrap32(requestIdSeed + 1);
      id := requestIdSeed;
      issued := issued + [id];
    }
  }
}
