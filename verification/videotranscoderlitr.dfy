/** `VideoTranscoderLiTr.transcodeVideo`: probe, size, skip check, one engine
    run, and the deletion of `outFile` on the skip path and on every
    exception. The probe of `inFile`, its length and the engine's run are
    inputs; the engine's write of `outFile` (whole or partial) is a create. */
module VideoTranscoderLiTr {
  import opened Results
  import opened Files
  import opened Sizes
  import opened VideoInfos
  import opened TransformerEngine

  const LimitSizeLonger: int := 960
  const LimitSizeShorter: int := 540
  /** Files whose bitrate is within this many bits per second pass through. */
  const LimitBps: int := 1_800_000

  /** The size check and the skip test. */
  function Decide(info: VideoInfo, fileLength: int): (d: Result<Decision>)
    ensures d.Failure? <==> fileLength <= 0
    ensures d.Success? ==>
      (d.value.Skip? <==>
        IsSmallEnough(info, fileLength, LimitBps) == Success(true)
        && ScaleTo(info.size, LimitSizeLonger, LimitSizeShorter) == info.size)
    ensures d.Success? && d.value.Transcode? ==>
      d.value.outSize == ScaleTo(info.size, LimitSizeLonger, LimitSizeShorter)
  {
    var outSize := ScaleTo(info.size, LimitSizeLonger, LimitSizeShorter);
    match IsSmallEnough(info, fileLength, LimitBps)
    case Failure(e) => Failure(e)
    case Success(small) => Success(if small && outSize == info.size then Skip else Transcode(outSize))
  }

  /** The input is passed through only when it already fits 960x540 in its
      own orientation and is under 500 kB or has a measured bitrate within
      1.8 Mbps. */
  lemma {:induction false} SkipMeansAlreadyFits(info: VideoInfo, fileLength: int)
    requires WellFormed(info)
    requires Decide(info, fileLength) == Success(Skip)
    ensures !Degenerate(info.size)
    ensures Fits(info.size, CapBox(info.size, LimitSizeLonger, LimitSizeShorter))
    ensures fileLength < SmallFileBytes
      || (info.durationMs.Some? && fileLength * 8000 < (LimitBps + 1) * info.durationMs.value)
  {
    if fileLength >= SmallFileBytes {
      IsSmallEnoughMeansBitrate(info, fileLength, LimitBps);
    }
  }

  /** A transcode target is never larger than the landscape or portrait
      960x540 box, and never larger than a non-degenerate input. */
  lemma {:induction false} TranscodeTargetFits(info: VideoInfo, fileLength: int)
    requires Decide(info, fileLength).Success? && Decide(info, fileLength).value.Transcode?
    ensures var o := Decide(info, fileLength).value.outSize;
      Fits(o, Size(LimitSizeLonger, LimitSizeShorter)) || Fits(o, Size(LimitSizeShorter, LimitSizeLonger))
    ensures var o := Decide(info, fileLength).value.outSize;
      !Degenerate(info.size) ==> o.w <= info.size.w && o.h <= info.size.h
  {
    var o := ScaleTo(info.size, LimitSizeLonger, LimitSizeShorter);
    assert Degenerate(info.size) ==> o == Size(LimitSizeLonger, LimitSizeShorter);
  }

  /** A size change always forces a transcode, whatever the bitrate; and a
      file under 500 kB is passed through only when it also fits the box. */
  lemma {:induction false} ResizeForcesTranscode(info: VideoInfo, fileLength: int)
    requires fileLength > 0
    ensures ScaleTo(info.size, LimitSizeLonger, LimitSizeShorter) != info.size ==>
      Decide(info, fileLength) == Success(Transcode(ScaleTo(info.size, LimitSizeLonger, LimitSizeShorter)))
    ensures fileLength < SmallFileBytes ==>
      (Decide(info, fileLength) == Success(Skip) <==> ScaleTo(info.size, LimitSizeLonger, LimitSizeShorter) == info.size)
  {
  }

  /** A ten-second 1920x1080 clip of 10 MB (8 Mbps) is transcoded to 960x540. */
  lemma FullHdClipIsTranscoded(info: VideoInfo)
    requires info.size == Size(1920, 1080) && info.durationMs == Some(10_000)
    ensures Decide(info, 10_000_000) == Success(Transcode(Size(960, 540)))
  {
    assert WidthBinds(Size(1920, 1080), Size(960, 540));
    assert RoundHalfUp(960 * 1080, 1920) == 540;
  }

  /** A two-second 320x240 clip of 400 kB is passed through. */
  lemma SmallClipIsSkipped(info: VideoInfo)
    requires info.size == Size(320, 240) && info.durationMs == Some(2_000)
    ensures Decide(info, 400_000) == Success(Skip)
  {
    assert Fits(Size(320, 240), CapBox(Size(320, 240), LimitSizeLonger, LimitSizeShorter));
  }

  /** The engine is started exactly when probing and the size check
      succeed and the input is not passed through. */
  predicate EngineInvoked(probe: Result<VideoInfo>, fileLength: int) {
    probe.Success? && Decide(probe.value, fileLength).Success?
    && Decide(probe.value, fileLength).value.Transcode?
  }

  /** What `transcodeVideo` returns or throws. */
  function TranscodeResult(probe: Result<VideoInfo>, fileLength: int, run: Run, inFile: Path, outFile: Path): (r: Result<Path>)
    requires run.EndsWith? ==> Terminal(run.event)
  {
    match probe
    case Failure(e) => Failure(e)
    case Success(info) =>
      match Decide(info, fileLength)
      case Failure(e) => Failure(e)
      case Success(Skip) => Success(inFile)
      case Success(Transcode(_)) =>
        match RunOutcome(run)
        case Pass => Success(outFile)
        case Fail(e) => Failure(e)
  }

  /** The result is `inFile` exactly on the skip path and `outFile` exactly
      when the engine completed; every throwable is passed on unchanged, and
      it is a cancellation only when the probe's error, the engine or the
      caller made it one. */
  lemma {:induction false} TranscodeResultCases(probe: Result<VideoInfo>, fileLength: int, run: Run, inFile: Path, outFile: Path)
    requires run.EndsWith? ==> Terminal(run.event)
    requires inFile != outFile
    ensures var r := TranscodeResult(probe, fileLength, run, inFile, outFile);
      (r == Success(inFile) <==> probe.Success? && Decide(probe.value, fileLength) == Success(Skip))
      && (r == Success(outFile) <==> EngineInvoked(probe, fileLength) && run == EndsWith(Completed))
      && (probe.Failure? ==> r == Failure(probe.error))
      && (probe.Success? && Decide(probe.value, fileLength).Failure? ==>
            r == Failure(Decide(probe.value, fileLength).error) && !IsCancellation(r.error))
      && (EngineInvoked(probe, fileLength) && RunOutcome(run).Fail? ==> r == Failure(RunOutcome(run).error))
      && (r.Failure? && IsCancellation(r.error) <==>
            (probe.Failure? && IsCancellation(probe.error))
            || (EngineInvoked(probe, fileLength) && RunOutcome(run).Fail? && IsCancellation(RunOutcome(run).error)))
  {
    if probe.Success? {
      var d := Decide(probe.value, fileLength);
      if d.Failure? {
        assert !IsCancellation(d.error);
      }
    }
  }

  /** What the engine is asked for: AVC at the scaled size within the
      960x540 box (either orientation) at 300 kbps with a 10 s I-frame
      interval, and stereo AAC at 64 kbps at no more than 44100 Hz and no
      more than the input's own rate. */
  lemma {:induction false} RequestWithinLimits(info: VideoInfo, fileLength: int)
    requires Decide(info, fileLength).Success? && Decide(info, fileLength).value.Transcode?
    ensures var v := TargetVideoFormat(Decide(info, fileLength).value.outSize);
      (Fits(Size(v.width, v.height), Size(LimitSizeLonger, LimitSizeShorter))
       || Fits(Size(v.width, v.height), Size(LimitSizeShorter, LimitSizeLonger)))
      && v.mime == "video/avc" && v.bitRate == TargetVideoBitrate && v.iFrameInterval == TargetIFrameInterval
    ensures var a := TargetAudioFormat(info.audioSampleRate);
      a.mime == "audio/mp4a-latm" && a.sampleRate <= TargetAudioSampleRate
      && (info.audioSampleRate.Some? ==> a.sampleRate <= info.audioSampleRate.value)
      && a.channelCount == TargetAudioChannels && a.bitRate == TargetAudioBitrate
  {
    TranscodeTargetFits(info, fileLength);
  }

  /** `transcodeVideo(context, inFile, outFile, onProgress)`; `st` is the
      adapter object's memoised engine and request-id counter. `request` is
      what `mediaTransformer.transform` is handed, when it is called. */
  method TranscodeVideo(st: TransformerSingleton, fs: FileSystem, inFile: Path, outFile: Path,
                        probe: Result<VideoInfo>, fileLength: int, run: Run)
    returns (r: Result<Path>, request: Option<TransformRequest>)
    requires run.EndsWith? ==> Terminal(run.event)
    requires st.Valid() && NoChildren(fs.existing, outFile)
    modifies st, fs
    ensures st.Valid()
    ensures r == TranscodeResult(probe, fileLength, run, inFile, outFile)
    // outFile survives only a completed transcode
    ensures fs.existing ==
      if EngineInvoked(probe, fileLength) && r.Success? then old(fs.existing) + {outFile}
      else old(fs.existing) - {outFile}
    // the engine and its counter are touched only when a transcode starts
    ensures EngineInvoked(probe, fileLength) ==>
      st.transformerNullable != null && |st.issued| == |old(st.issued)| + 1
      && (old(st.transformerNullable) != null ==> st.transformerNullable == old(st.transformerNullable))
    ensures !EngineInvoked(probe, fileLength) ==>
      st.transformerNullable == old(st.transformerNullable) && st.issued == old(st.issued)
      && st.requestIdSeed == old(st.requestIdSeed)
    // the engine is handed the next request id and the formats for the scaled size
    ensures request.Some? <==> EngineInvoked(probe, fileLength)
    ensures request.Some? ==>
      request.value == TransformRequest(Wrap32(|old(st.issued)| + 1),
                                        TargetVideoFormat(Decide(probe.value, fileLength).value.outSize),
                                        TargetAudioFormat(probe.value.audioSampleRate))
      && st.issued == old(st.issued) + [request.value.requestId]
  {
    request := None;
    if probe.Failure? {
      var _ := fs.Delete(outFile);
      return Failure(probe.error), None;
    }
    var info := probe.value;
    var outSize := ScaleTo(info.size, LimitSizeLonger, LimitSizeShorter);
    var small := IsSmallEnough(info, fileLength, LimitBps);
    if small.Failure? {
      var _ := fs.Delete(outFile);
      return Failure(small.error), None;
    }
    if small.value && outSize == info.size {
      var _ := fs.Delete(outFile);
      return Success(inFile), None;
    }
    var transformer := st.PrepareTransformer();
    var requestId := st.NextRequestId();
    var videoFormat := TargetVideoFormat(outSize);
    var audioFormat := TargetAudioFormat(info.audioSampleRate);
    request := Some(TransformRequest(requestId, videoFormat, audioFormat));
    NoChildrenAfterCreate(fs.existing, outFile);
    fs.Create(outFile);
    match RunOutcome(run)
    case Pass =>
      r := Success(outFile);
    case Fail(e) =>
      var _ := fs.Delete(outFile);
      r := Failure(e);
  }
}
