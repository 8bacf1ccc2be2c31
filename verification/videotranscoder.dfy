/** The older LiTr adapter `VideoTranscoder`: the same flow as
    `VideoTranscoderLiTr` with a 640x360 cap, the fixed strict bitrate limit
    of its nested `VideoInfo`, and a `VideoInfo` of the output (probed again
    after the engine completes) as its result. */
module VideoTranscoder {
  import opened Results
  import opened Files
  import opened Sizes
  import opened VideoInfos
  import opened TransformerEngine

  const LimitSizeLonger: int := 640
  const LimitSizeShorter: int := 360

  /** `scaling(inSize)`, the older copy of `Size.scaleTo` with the 640x360 cap. */
  function Scaling(s: Size): (r: Size)
    ensures Degenerate(s) ==> r == Size(LimitSizeLonger, LimitSizeShorter)
    ensures !Degenerate(s) ==> r.w <= s.w && r.h <= s.h
    ensures !Degenerate(s) ==> Fits(r, CapBox(s, LimitSizeLonger, LimitSizeShorter))
    ensures !Degenerate(s) ==> (r == s <==> Fits(s, CapBox(s, LimitSizeLonger, LimitSizeShorter)))
  {
    ScaleTo(s, LimitSizeLonger, LimitSizeShorter)
  }

  /** The size check and the skip test of the older adapter. */
  function Decide(info: VideoInfo, fileLength: int): (d: Result<Decision>)
    ensures d.Failure? <==> fileLength <= 0
    ensures d.Success? ==>
      (d.value.Skip? <==> IsSmallEnoughLegacy(info, fileLength) == Success(true) && Scaling(info.size) == info.size)
    ensures d.Success? && d.value.Transcode? ==> d.value.outSize == Scaling(info.size)
  {
    var outSize := Scaling(info.size);
    match IsSmallEnoughLegacy(info, fileLength)
    case Failure(e) => Failure(e)
    case Success(small) => Success(if small && outSize == info.size then Skip else Transcode(outSize))
  }

  /** The older adapter passes the input through only when it fits 640x360 in
      its own orientation and is under 500 kB or averages strictly less than
      365_024 bits per second. */
  lemma {:induction false} SkipMeansBelowLegacyLimit(info: VideoInfo, fileLength: int)
    requires WellFormed(info)
    requires Decide(info, fileLength) == Success(Skip)
    ensures !Degenerate(info.size)
    ensures Fits(info.size, CapBox(info.size, LimitSizeLonger, LimitSizeShorter))
    ensures fileLength < SmallFileBytes
      || (info.durationMs.Some? && fileLength * 8000 < LegacyLimitBps * info.durationMs.value)
  {
    LegacyIsInclusiveLimitMinusOne(info, fileLength);
    if fileLength >= SmallFileBytes {
      IsSmallEnoughMeansBitrate(info, fileLength, LegacyLimitBps - 1);
    }
  }

  predicate EngineInvoked(probe: Result<VideoInfo>, fileLength: int) {
    probe.Success? && Decide(probe.value, fileLength).Success?
    && Decide(probe.value, fileLength).value.Transcode?
  }

  /** What the older `transcodeVideo` returns or throws; `outProbe` is the
      probe of `outFile` after the engine completes. */
  function TranscodeResult(probe: Result<VideoInfo>, fileLength: int, run: Run, outProbe: Result<VideoInfo>): (r: Result<VideoInfo>)
    requires run.EndsWith? ==> Terminal(run.event)
  {
    match probe
    case Failure(e) => Failure(e)
    case Success(info) =>
      match Decide(info, fileLength)
      case Failure(e) => Failure(e)
      case Success(Skip) => Success(info)
      case Success(Transcode(_)) =>
        match RunOutcome(run)
        case Pass => outProbe
        case Fail(e) => Failure(e)
  }

  /** A skip hands back the input's own info, a completed transcode the
      output's; each failure is the throwable of the step that raised it,
      unchanged: the probe's, the size check's (never a cancellation), the
      engine's or the output probe's. */
  lemma {:induction false} TranscodeResultCases(probe: Result<VideoInfo>, fileLength: int, run: Run, outProbe: Result<VideoInfo>)
    requires run.EndsWith? ==> Terminal(run.event)
    ensures var r := TranscodeResult(probe, fileLength, run, outProbe);
      (probe.Failure? ==> r == probe)
      && (probe.Success? && Decide(probe.value, fileLength).Failure? ==>
            r == Failure(Decide(probe.value, fileLength).error) && !IsCancellation(r.error))
      && (probe.Success? && Decide(probe.value, fileLength) == Success(Skip) ==> r == probe)
      && (EngineInvoked(probe, fileLength) && run == EndsWith(Completed) ==> r == outProbe)
      && (EngineInvoked(probe, fileLength) && RunOutcome(run).Fail? ==> r == Failure(RunOutcome(run).error))
      && (r.Failure? && IsCancellation(r.error) <==>
            (probe.Failure? && IsCancellation(probe.error))
            || (EngineInvoked(probe, fileLength) && RunOutcome(run).Fail? && IsCancellation(RunOutcome(run).error))
            || (EngineInvoked(probe, fileLength) && run == EndsWith(Completed)
                && outProbe.Failure? && IsCancellation(outProbe.error)))
  {
    if probe.Success? {
      var d := Decide(probe.value, fileLength);
      if d.Failure? {
        assert !IsCancellation(d.error);
      }
    }
  }

  /** What the engine is asked for: AVC at the scaled size within the
      640x360 box (either orientation) at 300 kbps, and stereo AAC at 64 kbps
      at no more than 44100 Hz. */
  lemma {:induction false} RequestWithinLimits(info: VideoInfo, fileLength: int)
    requires Decide(info, fileLength).Success? && Decide(info, fileLength).value.Transcode?
    ensures var v := TargetVideoFormat(Decide(info, fileLength).value.outSize);
      (Fits(Size(v.width, v.height), Size(LimitSizeLonger, LimitSizeShorter))
       || Fits(Size(v.width, v.height), Size(LimitSizeShorter, LimitSizeLonger)))
      && v.bitRate == TargetVideoBitrate
    ensures TargetAudioFormat(info.audioSampleRate).sampleRate <= TargetAudioSampleRate
  {
    var o := Scaling(info.size);
    assert Degenerate(info.size) ==> o == Size(LimitSizeLonger, LimitSizeShorter);
  }

  /** The older `transcodeVideo(context, inFile, outFile, onProgress)`.
      `request` is what `mediaTransformer.transform` is handed, when it is
      called. */
  method TranscodeVideo(st: TransformerSingleton, fs: FileSystem, outFile: Path,
                        probe: Result<VideoInfo>, fileLength: int, run: Run, outProbe: Result<VideoInfo>)
    returns (r: Result<VideoInfo>, request: Option<TransformRequest>)
    requires run.EndsWith? ==> Terminal(run.event)
    requires st.Valid() && NoChildren(fs.existing, outFile)
    modifies st, fs
    ensures st.Valid()
    ensures r == TranscodeResult(probe, fileLength, run, outProbe)
    // outFile survives only a completed transcode whose output could be probed
    ensures fs.existing ==
      if EngineInvoked(probe, fileLength) && r.Success? then old(fs.existing) + {outFile}
      else old(fs.existing) - {outFile}
    ensures EngineInvoked(probe, fileLength) ==>
      st.transformerNullable != null && |st.issued| == |old(st.issued)| + 1
      && (old(st.transformerNullable) != null ==> st.transformerNullable == old(st.transformerNullable))
    ensures !EngineInvoked(probe, fileLength) ==>
      st.transformerNullable == old(st.transformerNullable) && st.issued == old(st.issued)
      && st.requestIdSeed == old(st.requestIdSeed)
    // the engine is handed the next request id and the formats for the scaled size
    ensures request.Some? <==> EngineInvoked(probe, fileLength)
    ensures request.Some? ==>
      request.value == TransformRequest(Wrap32(|old(st.issued)| + 1),
                                        TargetVideoFormat(Decide(probe.value, fileLength).value.outSize),
                                        TargetAudioFormat(probe.value.audioSampleRate))
      && st.issued == old(st.issued) + [request.value.requestId]
  {
    request := None;
    if probe.Failure? {
      var _ := fs.Delete(outFile);
      return Failure(probe.error), None;
    }
    var info := probe.value;
    var outSize := Scaling(info.size);
    var small := IsSmallEnoughLegacy(info, fileLength);
    if small.Failure? {
      var _ := fs.Delete(outFile);
      return Failure(small.error), None;
    }
    if small.value && outSize == info.size {
      var _ := fs.Delete(outFile);
      return Success(info), None;
    }
    var transformer := st.PrepareTransformer();
    var requestId := st.NextRequestId();
    var videoFormat := TargetVideoFormat(outSize);
    var audioFormat := TargetAudioFormat(info.audioSampleRate);
    request := Some(TransformRequest(requestId, videoFormat, audioFormat));
    NoChildrenAfterCreate(fs.existing, outFile);
    fs.Create(outFile);
    match RunOutcome(run)
    case Pass =>
      if outProbe.Failure? {
        var _ := fs.Delete(outFile);
      }
      r := outProbe;
    case Fail(e) =>
      var _ := fs.Delete(outFile);
      r := Failure(e);
  }
}
