/** `VideoTranscoderNatario.transcodeVideo`: opens the input, runs the natario
    `Transcoder` with fixed settings, routes its callbacks into one result,
    closes the progress channel and stops the progress sender in `finally`,
    and deletes `outFile` unless it is the result. */
module VideoTranscoderNatario {
  import opened Results
  import opened Files

  /** `Transcoder.SUCCESS_TRANSCODED`; the other success code is
      `SUCCESS_NOT_NEEDED`. */
  const SuccessTranscoded: int := 0

  /** The engine's settings: every one is a constant, whatever the input. */
  datatype VideoStrategy = VideoStrategy(atMostShorter: int, atMostLonger: int, frameRate: int, keyFrameInterval: real, bitRate: int)
  datatype AudioStrategy = AudioStrategy(channels: int, sampleRate: int, bitRate: int)

  const TheVideoStrategy: VideoStrategy := VideoStrategy(540, 960, 15, 10.0, 300_000)
  const TheAudioStrategy: AudioStrategy := AudioStrategy(1, 44100, 60_000)

  /** What the `Transcoder` builder is given: the output path and the two
      track strategies. */
  datatype TranscoderSettings = TranscoderSettings(destination: Path, video: VideoStrategy, audio: AudioStrategy)

  /** How the engine ends, as the waiting coroutine sees it: one of the
      listener's final callbacks, or the caller cancelling the coroutine. */
  datatype NatarioRun =
    | TranscodeCompleted(successCode: int)
    | TranscodeCanceled
    | TranscodeFailed(exception: Throwable)
    | JobCancelled

  /** `onTranscodeCompleted`: the file the success code selects. */
  function SelectResult(successCode: int, inFile: Path, outFile: Path): (f: Path)
    ensures successCode == SuccessTranscoded ==> f == outFile
    ensures successCode != SuccessTranscoded ==> f == inFile
  {
    if successCode == SuccessTranscoded then outFile else inFile
  }

  /** `FileInputStream(inFile)` on a missing file. */
  function FileNotFoundError(): (e: Throwable)
    ensures e.kind == FileNotFound && !IsCancellation(e)
  {
    Throwable(FileNotFound, Some("No such file or directory"), None)
  }

  /** What `transcodeVideo` returns or throws. */
  function TranscodeResult(inputExists: bool, run: NatarioRun, inFile: Path, outFile: Path): (r: Result<Path>) {
    if !inputExists then Failure(FileNotFoundError())
    else
      match run
      case TranscodeCompleted(code) => Success(SelectResult(code, inFile, outFile))
      case TranscodeCanceled => Failure(CancellationException("transcode cancelled.", None))
      case TranscodeFailed(ex) => Failure(ex)
      case JobCancelled => Failure(CancellationException("Job was cancelled", None))
  }

  /** Completion yields `outFile` exactly for `SUCCESS_TRANSCODED` and `inFile`
      otherwise; the engine's own exception comes back unchanged; the result
      is a cancellation exactly when the engine or the caller cancelled, or
      the engine's exception was one. */
  lemma {:induction false} TranscodeResultCases(inputExists: bool, run: NatarioRun, inFile: Path, outFile: Path)
    requires inFile != outFile
    ensures var r := TranscodeResult(inputExists, run, inFile, outFile);
      (r == Success(outFile) <==> inputExists && run == TranscodeCompleted(SuccessTranscoded))
      && (r == Success(inFile) <==> inputExists && run.TranscodeCompleted? && run.successCode != SuccessTranscoded)
      && (inputExists && run.TranscodeFailed? ==> r == Failure(run.exception))
      && (r.Failure? && IsCancellation(r.error) <==>
            inputExists && (run.TranscodeCanceled? || run.JobCancelled?
                            || (run.TranscodeFailed? && IsCancellation(run.exception))))
  {
    if inputExists && run.TranscodeCompleted? {
      var f := SelectResult(run.successCode, inFile, outFile);
      assert f == outFile <==> run.successCode == SuccessTranscoded;
    }
  }

  /** The conflated progress channel and the coroutine that drains it. */
  class ProgressChannel {
    var closed: bool
    var latest: Option<real>
    var senderActive: bool

    constructor ()
      ensures !closed && latest.None? && senderActive
    {
      closed := false;
      latest := None;
      senderActive := true;
    }

    /** `trySend`: an open channel keeps only the newest value; a closed one
        refuses it. */
    method TrySend(x: real) returns (ok: bool)
      modifies this`latest
      ensures ok == !closed
      ensures latest == if ok then Some(x) else old(latest)
    {
      ok := !closed;
      if ok {
        latest := Some(x);
      }
    }

    /** `close()` */
    method Close()
      modifies this`closed
      ensures closed
    {
      closed := true;
    }

    /** `cancelAndJoin()` on the sender: it is stopped when this returns. */
    method CancelSender()
      modifies this`senderActive
      ensures !senderActive
    {
      senderActive := false;
    }

    /** `onTranscodeProgress`: the outcome of `trySend` is only logged, so a
        progress report never fails and never changes anything but the
        pending value. */
    method OnTranscodeProgress(progress: real)
      modifies this`latest
      ensures latest == if closed then old(latest) else Some(progress)
    {
      var ok := TrySend(progress);
    }
  }

  /** `transcodeVideo(inFile, outFile, onProgress)`. `run` is how the engine
      ends; its write of `outFile` is a create. `channel` is the progress
      channel, null when the input could not be opened; `settings` is what
      the engine is configured with, when it is started. */
  method TranscodeVideo(fs: FileSystem, inFile: Path, outFile: Path, run: NatarioRun)
    returns (r: Result<Path>, channel: ProgressChannel?, settings: Option<TranscoderSettings>)
    requires NoChildren(fs.existing, outFile)
    modifies fs
    ensures r == TranscodeResult(inFile in old(fs.existing), run, inFile, outFile)
    // outFile is kept exactly when it is the result
    ensures fs.existing ==
      if r == Success(outFile) then old(fs.existing) + {outFile} else old(fs.existing) - {outFile}
    // on every path past opening the input, the channel ends closed and the sender stopped
    ensures (channel != null) == (inFile in old(fs.existing))
    ensures channel != null ==> fresh(channel) && channel.closed && !channel.senderActive
    // once the input is open, the engine writes outFile with the fixed strategies, whatever the input
    ensures settings.Some? <==> inFile in old(fs.existing)
    ensures settings.Some? ==> settings.value == TranscoderSettings(outFile, TheVideoStrategy, TheAudioStrategy)
  {
    if inFile !in fs.existing {
      var _ := fs.Delete(outFile);
      return Failure(FileNotFoundError()), null, None;
    }
    channel := new ProgressChannel();
    settings := Some(TranscoderSettings(outFile, TheVideoStrategy, TheAudioStrategy));
    NoChildrenAfterCreate(fs.existing, outFile);
    fs.Create(outFile);
    var resultFile: Path;
    var failure: Option<Throwable> := None;
    match run {
      case TranscodeCompleted(code) =>
        resultFile := SelectResult(code, inFile, outFile);
      case TranscodeCanceled =>
        resultFile := outFile;
        failure := Some(CancellationException("transcode cancelled.", None));
      case TranscodeFailed(ex) =>
        resultFile := outFile;
        failure := Some(ex);
      case JobCancelled =>
        resultFile := outFile;
        failure := Some(CancellationException("Job was cancelled", None));
    }
    // finally
    channel.Close();
    channel.CancelSender();
    if failure.Some? {
      // catch
      var _ := fs.Delete(outFile);
      return Failure(failure.value), channel, settings;
    }
    if resultFile != outFile {
      var _ := fs.Delete(outFile);
    }
    r := Success(resultFile);
  }
}
