/** The view model `ActMain.VM` and its `handleInputUri`: copy the picked
    video into a temporary input file, run the chosen adapter, publish the
    result and its mime type, delete the temporary files that are not the
    result, and report success, cancellation or error. The copy's outcome,
    the adapters' inputs and the probe of the result are the parameters;
    `OnProgress` is the progress callback passed to the LiTr and natario
    adapters. */
module ActMain {
  import opened Results
  import opened Files
  import opened VideoInfos
  import TransformerEngine
  import VideoTranscoderLiTr
  import VideoTranscoderNatario
  import VideoTranscoderSili

  /** Stand-ins for the generated `R.id.rbLitr`, `R.id.rbNatario` and
      `R.id.rbSili`; only their distinctness matters. */
  const RbLitr: int := 1
  const RbNatario: int := 2
  const RbSili: int := 3

  /** The lines `logText` shows: "処理開始", "変換中 N%", "変換終了 …",
      "キャンセルされた", and "<exception class> <message>". The elapsed time
      of the finished line is not modelled. */
  datatype LogText =
    | Started
    | Converting(percent: int)
    | Finished(resultInfo: VideoInfo)
    | CancelledText
    | Failed(text: string)

  /** The `catch` block's text for a throwable. */
  function FailureText(e: Throwable): (t: LogText)
    ensures t == CancelledText <==> IsCancellation(e)
    ensures !IsCancellation(e) ==> t == Failed(SimpleName(e.kind) + " " + e.message.GetOr("null"))
  {
    if IsCancellation(e) then CancelledText
    else Failed(SimpleName(e.kind) + " " + e.message.GetOr("null"))
  }

  /** `(ratio * 100f + 0.5f).toInt()`: truncation toward zero, saturating at
      the bounds of `Int`. */
  function ProgressPercent(ratio: real): (p: int)
    ensures IntMin <= p <= IntMax
  {
    var x := ratio * 100.0 + 0.5;
    SaturateToInt(if x >= 0.0 then x.Floor else -((-x).Floor))
  }

  /** For a ratio in [0, 1] the percentage is within [0, 100] and is the
      ratio times 100 rounded half up. */
  lemma ProgressPercentRounds(ratio: real)
    requires 0.0 <= ratio <= 1.0
    ensures 0 <= ProgressPercent(ratio) <= 100
    ensures ProgressPercent(ratio) as real <= ratio * 100.0 + 0.5 < ProgressPercent(ratio) as real + 1.0
  {
  }

  /** Progress never runs backwards on screen when the ratio does not. */
  lemma {:induction false} ProgressPercentMonotone(r1: real, r2: real)
    requires 0.0 <= r1 <= r2 <= 1.0
    ensures ProgressPercent(r1) <= ProgressPercent(r2)
  {
    ProgressPercentRounds(r1);
    ProgressPercentRounds(r2);
  }

  /** Everything `handleInputUri` learns from outside: the outcome of copying
      the picked content into `inFile`, the probe and length of `inFile`, how
      each adapter's engine ends, the clock, the coroutine's state after the
      SiliCompressor returns, and the probe of the result. */
  datatype Environment = Environment(
    copyError: Option<Throwable>,
    probe: Result<VideoInfo>,
    fileLength: int,
    litrRun: TransformerEngine.Run,
    natarioRun: VideoTranscoderNatario.NatarioRun,
    millis: nat,
    siliOutcome: VideoTranscoderSili.SiliOutcome,
    active: bool,
    resultProbe: Result<VideoInfo>)

  predicate WellFormedEnvironment(env: Environment) {
    env.litrRun.EndsWith? ==> TransformerEngine.Terminal(env.litrRun.event)
  }

  /** What the chosen adapter returns or throws. */
  function AdapterResult(buttonId: int, inFile: Path, outFile: Path, env: Environment): (r: Result<Path>)
    requires WellFormedEnvironment(env)
  {
    if buttonId == RbLitr then
      VideoTranscoderLiTr.TranscodeResult(env.probe, env.fileLength, env.litrRun, inFile, outFile)
    else if buttonId == RbNatario then
      VideoTranscoderNatario.TranscodeResult(true, env.natarioRun, inFile, outFile)
    else if buttonId == RbSili then
      VideoTranscoderSili.TranscodeResult(outFile, env.probe, env.siliOutcome, env.active)
    else
      Failure(Error("incorrect button id"))
  }

  /** The file the job publishes, or the throwable that ends it. */
  function JobResult(buttonId: int, inFile: Path, outFile: Path, env: Environment): (j: Result<Path>)
    requires WellFormedEnvironment(env)
  {
    if env.copyError.Some? then Failure(env.copyError.value)
    else
      match AdapterResult(buttonId, inFile, outFile, env)
      case Failure(e) => Failure(e)
      case Success(p) =>
        match env.resultProbe
        case Failure(e) => Failure(e)
        case Success(_) => Success(p)
  }

  /** Every adapter hands back one of the two temporary files, so the
      published file is always one of them; an unknown button id is an
      error, not a cancellation. */
  lemma {:induction false} JobResultIsATempFile(buttonId: int, inFile: Path, outFile: Path, env: Environment)
    requires WellFormedEnvironment(env) && inFile != outFile
    ensures var j := JobResult(buttonId, inFile, outFile, env);
      (j.Success? ==> j.value == inFile || j.value == outFile)
      && (j.Success? && j.value == inFile ==> buttonId == RbLitr || buttonId == RbNatario)
      && (buttonId !in {RbLitr, RbNatario, RbSili} && env.copyError.None? ==> j.Failure? && !IsCancellation(j.error))
  {
    if buttonId == RbLitr {
      VideoTranscoderLiTr.TranscodeResultCases(env.probe, env.fileLength, env.litrRun, inFile, outFile);
    } else if buttonId == RbNatario {
      VideoTranscoderNatario.TranscodeResultCases(true, env.natarioRun, inFile, outFile);
    } else if buttonId == RbSili {
      VideoTranscoderSili.TranscodeResultCases(outFile, env.probe, env.siliOutcome, env.active);
    }
  }

  /** Two sibling files stay free of children when either is created. */
  lemma SiblingFilesStayLeaves(existing: set<Path>, a: Path, b: Path, extra: set<Path>)
    requires NoChildren(existing, a) && NoChildren(existing, b)
    requires a.Child? && b.Child? && a.parent == b.parent
    requires extra <= {a, b}
    ensures NoChildren(existing + extra, a) && NoChildren(existing + extra, b)
  {
    SiblingsNotUnder(a, b);
    SiblingsNotUnder(b, a);
    NotUnderSelf(a);
    NotUnderSelf(b);
  }

  class VM {
    var logText: Option<LogText>
    var progressPercent: int
    var compressedPath: Option<Path>
    var compressedMimeType: Option<string>
    /** The running job, as the button that started it. */
    var transcodeTask: Option<int>

    constructor ()
      ensures logText.None? && progressPercent == 0 && compressedPath.None?
      ensures compressedMimeType.None? && transcodeTask.None?
    {
      logText := None;
      progressPercent := 0;
      compressedPath := None;
      compressedMimeType := None;
      transcodeTask := None;
    }

    /** The `onProgress` lambda: shows the rounded percentage. */
    method OnProgress(ratio: real)
      modifies this`progressPercent, this`logText
      ensures progressPercent == ProgressPercent(ratio)
      ensures logText == Some(Converting(ProgressPercent(ratio)))
    {
      var percent := ProgressPercent(ratio);
      progressPercent := percent;
      logText := Some(Converting(percent));
    }

    /** `handleInputUri(uri, buttonId)`. `inFile` and `outFile` are the two
        names `File.createTempFile` picks in the cache directory; they begin
        with "input" and "output", so neither is the Sili temporary
        directory's name. `litr` is the LiTr adapter's engine state. The Sili
        adapter runs with its cleanup as corrected, so it leaves no
        temporary directory behind. Progress callbacks during the run are
        not replayed here. */
    method HandleInputUri(fs: FileSystem, litr: TransformerEngine.TransformerSingleton,
                          buttonId: int, inFile: Path, outFile: Path, env: Environment)
      requires WellFormedEnvironment(env) && litr.Valid()
      requires inFile.Child? && outFile.Child? && inFile.parent == outFile.parent && inFile != outFile
      requires inFile !in fs.existing && outFile !in fs.existing
      requires NoChildren(fs.existing, inFile) && NoChildren(fs.existing, outFile)
      requires inFile.name != VideoTranscoderSili.TempDirName(env.millis)
      requires outFile.name != VideoTranscoderSili.TempDirName(env.millis)
      modifies this, fs, litr
      ensures litr.Valid()
      ensures var j := JobResult(buttonId, inFile, outFile, env);
        compressedPath == (if j.Success? then Some(j.value) else None)
        && logText == Some(if j.Success? then Finished(env.resultProbe.value) else FailureText(j.error))
        && compressedMimeType == (if j.Success? then env.resultProbe.value.mimeType else old(compressedMimeType))
      // a temporary file survives exactly when it is the published result
      ensures inFile in fs.existing <==> compressedPath == Some(inFile)
      ensures outFile in fs.existing <==> compressedPath == Some(outFile)
      // no other file is left behind
      ensures forall q :: q in fs.existing && q != inFile && q != outFile ==> q in old(fs.existing)
      // and every file that was there survives, outside the Sili temporary directory
      ensures forall q :: q in old(fs.existing) && q != inFile && q != outFile
                 && (buttonId == RbSili ==> var t := VideoTranscoderSili.TempDir(outFile, env.millis).value;
                                            q != t && !Under(q, t))
               ==> q in fs.existing
      ensures progressPercent == 0 && transcodeTask.None?
    {
      logText := Some(Started);
      progressPercent := 0;
      compressedPath := None;
      var base := fs.existing;
      fs.Create(outFile);
      fs.Create(inFile);
      SiblingFilesStayLeaves(base, inFile, outFile, {outFile, inFile});
      var failure: Option<Throwable> := None;
      if env.copyError.Some? {
        failure := env.copyError;
      } else {
        transcodeTask := Some(buttonId);
        var result := RunAdapter(fs, litr, buttonId, inFile, outFile, env);
        match result
        case Failure(e) =>
          failure := Some(e);
        case Success(p) =>
          match env.resultProbe
          case Failure(e) =>
            failure := Some(e);
          case Success(info) =>
            logText := Some(Finished(info));
            compressedPath := Some(p);
            compressedMimeType := info.mimeType;
      }
      // finally
      DeleteTempFiles(fs, inFile, outFile, compressedPath);
      if failure.Some? {
        logText := Some(FailureText(failure.value));
      }
      transcodeTask := None;
    }
  }

  /** The `when (buttonId)` dispatch inside the `async` job, with the Sili
      adapter's cleanup as corrected (`VideoTranscoderSili.TranscodeVideo`).
      Every adapter keeps `inFile`, adds nothing but `outFile`, and hands
      back a file that exists. */
  method RunAdapter(fs: FileSystem, litr: TransformerEngine.TransformerSingleton,
                    buttonId: int, inFile: Path, outFile: Path, env: Environment)
    returns (result: Result<Path>)
    requires WellFormedEnvironment(env) && litr.Valid()
    requires inFile.Child? && outFile.Child? && inFile.parent == outFile.parent && inFile != outFile
    requires inFile in fs.existing && outFile in fs.existing
    requires NoChildren(fs.existing, inFile) && NoChildren(fs.existing, outFile)
    requires inFile.name != VideoTranscoderSili.TempDirName(env.millis)
    requires outFile.name != VideoTranscoderSili.TempDirName(env.millis)
    modifies fs, litr
    ensures litr.Valid()
    ensures result == AdapterResult(buttonId, inFile, outFile, env)
    ensures result.Success? ==> result.value in fs.existing
    ensures inFile in fs.existing
    ensures NoChildren(fs.existing, inFile) && NoChildren(fs.existing, outFile)
    ensures forall q :: q in fs.existing && q != outFile ==> q in old(fs.existing)
    ensures forall q :: q in old(fs.existing) && q != outFile
               && (buttonId == RbSili ==> var t := VideoTranscoderSili.TempDir(outFile, env.millis).value;
                                          q != t && !Under(q, t))
             ==> q in fs.existing
  {
    var created := fs.existing;
    if buttonId == RbLitr {
      var request;
      result, request := VideoTranscoderLiTr.TranscodeVideo(litr, fs, inFile, outFile, env.probe, env.fileLength, env.litrRun);
      VideoTranscoderLiTr.TranscodeResultCases(env.probe, env.fileLength, env.litrRun, inFile, outFile);
      SiblingFilesStayLeaves(created - {outFile}, inFile, outFile, {outFile});
    } else if buttonId == RbNatario {
      var channel, settings;
      result, channel, settings := VideoTranscoderNatario.TranscodeVideo(fs, inFile, outFile, env.natarioRun);
      SiblingFilesStayLeaves(created - {outFile}, inFile, outFile, {outFile});
    } else if buttonId == RbSili {
      var request;
      result, request := VideoTranscoderSili.TranscodeVideo(fs, inFile, outFile, env.millis, env.probe, env.siliOutcome, env.active);
      SiliLeavesSiblingsAlone(created, fs.existing, inFile, outFile, env.millis);
      VideoTranscoderSili.TranscodeResultCases(outFile, env.probe, env.siliOutcome, env.active);
    } else {
      result := Failure(Error("incorrect button id"));
    }
  }

  /** The `finally` block's `forEach`: each of the two temporary files is
      deleted unless it is the published one. */
  method DeleteTempFiles(fs: FileSystem, inFile: Path, outFile: Path, keep: Option<Path>)
    requires inFile != outFile
    requires NoChildren(fs.existing, inFile) && NoChildren(fs.existing, outFile)
    modifies fs
    ensures inFile in fs.existing <==> inFile in old(fs.existing) && keep == Some(inFile)
    ensures outFile in fs.existing <==> outFile in old(fs.existing) && keep == Some(outFile)
    ensures forall q :: q != inFile && q != outFile ==> (q in fs.existing <==> q in old(fs.existing))
  {
    var files := [inFile, outFile];
    for i := 0 to |files|
      invariant fs.existing <= old(fs.existing)
      invariant forall q :: q in old(fs.existing) && q != inFile && q != outFile ==> q in fs.existing
      invariant forall j :: 0 <= j < i ==> (files[j] in fs.existing <==> files[j] in old(fs.existing) && Some(files[j]) == keep)
      invariant forall j :: i <= j < |files| ==> (files[j] in fs.existing <==> files[j] in old(fs.existing))
    {
      if Some(files[i]) != keep {
        var _ := fs.Delete(files[i]);
      }
    }
    assert files[0] == inFile && files[1] == outFile;
  }

  /** After the Sili adapter, the two temporary files are still leaves and
      nothing but `outFile` is new. */
  lemma SiliLeavesSiblingsAlone(before: set<Path>, after: set<Path>, inFile: Path, outFile: Path, millis: nat)
    requires inFile.Child? && outFile.Child? && inFile.parent == outFile.parent && inFile != outFile
    requires inFile.name != VideoTranscoderSili.TempDirName(millis)
    requires NoChildren(before, inFile) && NoChildren(before, outFile)
    requires var t := VideoTranscoderSili.TempDir(outFile, millis).value;
      t !in after && NoChildren(after, t)
      && forall q :: q != outFile && q != t && !Under(q, t) ==> (q in after <==> q in before)
    ensures NoChildren(after, inFile) && NoChildren(after, outFile)
    ensures inFile in after <==> inFile in before
    ensures forall q :: q in after && q != outFile ==> q in before
  {
    var t := VideoTranscoderSili.TempDir(outFile, millis).value;
    SiblingsNotUnder(inFile, t);
    SiblingsNotUnder(t, inFile);
    SiblingsNotUnder(outFile, inFile);
    SiblingsNotUnder(inFile, outFile);
    NotUnderSelf(outFile);
    if outFile.name != t.name {
      SiblingsNotUnder(t, outFile);
    }
  }
}
