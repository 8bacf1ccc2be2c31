/** `VideoTranscoderSili.transcodeVideo`: makes a temporary directory beside
    `outFile`, lets SiliCompressor write into it under a name of its own
    choosing, renames that file to `outFile`, and cleans up. The clock, the
    probe of `inFile`, the library's outcome and the coroutine's `isActive`
    after the library returns are inputs. */
module VideoTranscoderSili {
  import opened Results
  import opened Files
  import opened Sizes
  import opened VideoInfos

  const LimitSizeLonger: int := 960
  const LimitSizeShorter: int := 540
  const TargetVideoBitrate: int := 300_000

  function DigitChar(d: nat): (c: char)
    requires d < 10
    ensures '0' <= c <= '9'
  {
    "0123456789"[d]
  }

  /** The decimal digits of `n`. */
  function DecimalString(n: nat): (s: string)
    ensures |s| >= 1
    decreases n
  {
    if n < 10 then [DigitChar(n)] else DecimalString(n / 10) + [DigitChar(n % 10)]
  }

  /** The name `"temp${System.currentTimeMillis()}"`. */
  function TempDirName(millis: nat): (n: string)
    ensures |n| > 4 && n[..4] == "temp"
  {
    "temp" + DecimalString(millis)
  }

  /** The temporary directory: beside `outFile`, absent when `outFile` has no
      parent. */
  function TempDir(outFile: Path, millis: nat): (t: Option<Path>)
    ensures t.Some? <==> outFile.Child?
    ensures t.Some? ==> t.value.Child? && t.value.parent == outFile.parent
  {
    match ParentFile(outFile)
    case None => None
    case Some(d) => Some(Child(d, TempDirName(millis)))
  }

  /** What `SiliCompressor.compressVideo` is handed: the input, the
      directory it writes into, the output size and the bitrate. */
  datatype CompressRequest = CompressRequest(source: Path, destDir: Path, width: int, height: int, bitRate: int)

  /** The request for a probed input: `scaleTo(960, 540)` of its size at
      300 kbps. There is no pass-through: an input that already fits is
      compressed too, at its own size. */
  function CompressRequestFor(inFile: Path, tempDir: Path, info: VideoInfo): (q: CompressRequest)
    ensures q.source == inFile && q.destDir == tempDir && q.bitRate == TargetVideoBitrate
    ensures Fits(Size(q.width, q.height), Size(LimitSizeLonger, LimitSizeShorter))
         || Fits(Size(q.width, q.height), Size(LimitSizeShorter, LimitSizeLonger))
    ensures !Degenerate(info.size) ==> q.width <= info.size.w && q.height <= info.size.h
    ensures !Degenerate(info.size) ==>
      (Size(q.width, q.height) == info.size <==> Fits(info.size, CapBox(info.size, LimitSizeLonger, LimitSizeShorter)))
  {
    var outSize := ScaleTo(info.size, LimitSizeLonger, LimitSizeShorter);
    assert Degenerate(info.size) ==> outSize == Size(LimitSizeLonger, LimitSizeShorter);
    CompressRequest(inFile, tempDir, outSize.w, outSize.h, TargetVideoBitrate)
  }

  /** How the compressor thread ends: it returns the path of the file it
      wrote, or throws, or the caller cancels the coroutine first. A thrown
      or cancelled run may leave a partial file of its own naming in the
      temporary directory. */
  datatype SiliOutcome =
    | Compressed(name: string)
    | Threw(exception: Throwable, partial: Option<string>)
    | JobCancelled(partial: Option<string>)

  /** The compressor thread's `catch` blocks: an interrupt becomes a
      cancellation carrying it as the cause; anything else is passed on. */
  function MapError(ex: Throwable): (e: Throwable)
    ensures ex.kind == Interrupted ==> e == CancellationException("interrupted.", Some(ex))
    ensures ex.kind != Interrupted ==> e == ex
  {
    if ex.kind == Interrupted then CancellationException("interrupted.", Some(ex)) else ex
  }

  /** A thrown error reaches the caller as a cancellation exactly when it was
      an interrupt or already a cancellation. */
  lemma MapErrorCancellation(ex: Throwable)
    ensures IsCancellation(MapError(ex)) <==> ex.kind == Interrupted || ex.kind == Cancellation
    ensures ex.kind == Interrupted ==> MapError(ex).cause == Some(ex)
  {
  }

  /** What `transcodeVideo` returns or throws. */
  function TranscodeResult(outFile: Path, probe: Result<VideoInfo>, outcome: SiliOutcome, active: bool): (r: Result<Path>) {
    if outFile.Root? then Failure(Error("can't make tempDir"))
    else if probe.Failure? then Failure(probe.error)
    else
      match outcome
      case Compressed(_) =>
        if active then Success(outFile) else Failure(CancellationException("transcode cancelled.", None))
      case Threw(ex, _) => Failure(MapError(ex))
      case JobCancelled(_) => Failure(CancellationException("Job was cancelled", None))
  }

  /** The only value ever returned is `outFile`, and only when the compressor
      finished while the coroutine was still active; the result is a
      cancellation exactly when an interrupt, a cancellation or a late
      cancellation caused it, or the probe's error was one. */
  lemma {:induction false} TranscodeResultCases(outFile: Path, probe: Result<VideoInfo>, outcome: SiliOutcome, active: bool)
    ensures var r := TranscodeResult(outFile, probe, outcome, active);
      (r.Success? ==> r.value == outFile)
      && (r.Success? <==> outFile.Child? && probe.Success? && outcome.Compressed? && active)
      && (r.Failure? && IsCancellation(r.error) <==>
            outFile.Child? &&
            ((probe.Failure? && IsCancellation(probe.error))
             || (probe.Success? &&
                 ((outcome.Compressed? && !active) || outcome.JobCancelled?
                  || (outcome.Threw? && (outcome.exception.kind == Interrupted || outcome.exception.kind == Cancellation))))))
  {
    if outFile.Child? && probe.Success? && outcome.Threw? {
      MapErrorCancellation(outcome.exception);
    }
  }

  /** What the compressor has left inside `tempDir` when the `finally` block
      runs: the file it wrote when it was not renamed away, or its partial
      output. */
  function Leftovers(tempDir: Path, outcome: SiliOutcome, active: bool): (s: set<Path>)
    ensures forall q :: q in s ==> q.Child? && q.parent == tempDir
    ensures s == {} <==> (outcome.Compressed? && active) || (!outcome.Compressed? && outcome.partial.None?)
  {
    match outcome
    case Compressed(name) => if active then {} else {Child(tempDir, name)}
    case Threw(_, partial) => if partial.Some? then {Child(tempDir, partial.value)} else {}
    case JobCancelled(partial) => if partial.Some? then {Child(tempDir, partial.value)} else {}
  }

  /** The cleanup as written, `tempDir?.delete()`, is `File.delete()`: it does
      not remove a directory that still holds a file, so whenever the
      compressor leaves something behind the temporary directory survives. */
  lemma {:induction false} PlainDeleteKeepsTempDir(existing: set<Path>, tempDir: Path, outcome: SiliOutcome, active: bool)
    requires Leftovers(tempDir, outcome, active) != {}
    ensures var s := existing + {tempDir} + Leftovers(tempDir, outcome, active);
      tempDir in AfterDelete(s, tempDir)
  {
    var q :| q in Leftovers(tempDir, outcome, active);
    assert Under(q, tempDir);
    assert !NoChildren(existing + {tempDir} + Leftovers(tempDir, outcome, active), tempDir);
  }

  /** Two runs that leave the temporary directory behind: a cancellation
      that arrives after the compressor returned, and an interrupt that
      leaves a partial file. */
  lemma TempDirLeftBehindExamples(tempDir: Path, ex: Throwable)
    ensures Leftovers(tempDir, Compressed("VIDEO_1.mp4"), false) != {}
    ensures Leftovers(tempDir, Threw(ex, Some("VIDEO_1.mp4")), true) != {}
  {
    assert Child(tempDir, "VIDEO_1.mp4") in Leftovers(tempDir, Compressed("VIDEO_1.mp4"), false);
    assert Child(tempDir, "VIDEO_1.mp4") in Leftovers(tempDir, Threw(ex, Some("VIDEO_1.mp4")), true);
  }

  /** Adding a sibling of `p` and entries of that sibling leaves `p` free of
      children. */
  lemma NoChildrenBesideSibling(existing: set<Path>, p: Path, sibling: Path, extra: set<Path>)
    requires NoChildren(existing, p)
    requires p.Child? && sibling.Child? && sibling.parent == p.parent && sibling != p
    requires forall q :: q in extra ==> q.Child? && q.parent == sibling
    ensures NoChildren(existing + {sibling} + extra, p)
  {
    SiblingsNotUnder(sibling, p);
  }

  /** The `try` and `catch` blocks once the temporary directory exists:
      the probe, the compressor, the `isActive` check, the rename, and the
      deletion of `outFile` on every throwable. */
  method RunCompressor(fs: FileSystem, inFile: Path, outFile: Path, tempDir: Path,
                       probe: Result<VideoInfo>, outcome: SiliOutcome, active: bool)
    returns (r: Result<Path>, request: Option<CompressRequest>)
    requires outFile.Child? && tempDir.Child? && tempDir.parent == outFile.parent && tempDir != outFile
    requires tempDir in fs.existing && NoChildren(fs.existing, outFile)
    modifies fs
    ensures r == TranscodeResult(outFile, probe, outcome, active)
    ensures request == if probe.Success? then Some(CompressRequestFor(inFile, tempDir, probe.value)) else None
    // on success the compressor's file has become outFile
    ensures r.Success? ==>
      outcome.Compressed? && fs.existing == old(fs.existing) - {Child(tempDir, outcome.name)} + {outFile}
    // on failure outFile is gone and what the compressor left stays in tempDir
    ensures r.Failure? ==>
      fs.existing == old(fs.existing) + (if probe.Success? then Leftovers(tempDir, outcome, active) else {}) - {outFile}
  {
    request := None;
    var failure: Option<Throwable> := None;
    var extra: set<Path> := {};
    if probe.Failure? {
      failure := Some(probe.error);
    } else {
      request := Some(CompressRequestFor(inFile, tempDir, probe.value));
      match outcome {
        case Compressed(name) =>
          extra := {Child(tempDir, name)};
          fs.Create(Child(tempDir, name));
          if !active {
            failure := Some(CancellationException("transcode cancelled.", None));
          } else {
            var _ := fs.RenameTo(Child(tempDir, name), outFile);
          }
        case Threw(ex, partial) =>
          if partial.Some? {
            extra := {Child(tempDir, partial.value)};
            fs.Create(Child(tempDir, partial.value));
          }
          failure := Some(MapError(ex));
        case JobCancelled(partial) =>
          if partial.Some? {
            extra := {Child(tempDir, partial.value)};
            fs.Create(Child(tempDir, partial.value));
          }
          failure := Some(CancellationException("Job was cancelled", None));
      }
    }
    if failure.Some? {
      // catch
      NoChildrenBesideSibling(old(fs.existing), outFile, tempDir, extra);
      assert fs.existing == old(fs.existing) + {tempDir} + extra;
      var _ := fs.Delete(outFile);
      r := Failure(failure.value);
    } else {
      r := Success(outFile);
    }
  }

  /** `transcodeVideo(context, inFile, outFile)`, with the cleanup deleting
      the temporary directory and everything in it. `request` is what the
      compressor is handed, when it is called. */
  method TranscodeVideo(fs: FileSystem, inFile: Path, outFile: Path, millis: nat,
                        probe: Result<VideoInfo>, outcome: SiliOutcome, active: bool)
    returns (r: Result<Path>, request: Option<CompressRequest>)
    requires NoChildren(fs.existing, outFile)
    requires outFile.Child? ==> outFile.name != TempDirName(millis)
    modifies fs
    ensures r == TranscodeResult(outFile, probe, outcome, active)
    // every probed input is compressed into the temporary directory at scaleTo(960, 540) and 300 kbps
    ensures request == if outFile.Child? && probe.Success?
      then Some(CompressRequestFor(inFile, TempDir(outFile, millis).value, probe.value)) else None
    // outFile exists afterwards exactly when it is the result
    ensures outFile in fs.existing <==> r.Success?
    // the temporary directory is gone with everything in it
    ensures TempDir(outFile, millis).Some? ==>
      var t := TempDir(outFile, millis).value;
      t !in fs.existing && NoChildren(fs.existing, t)
    // nothing else is touched
    ensures forall q :: q != outFile && (TempDir(outFile, millis).Some? ==>
                 q != TempDir(outFile, millis).value && !Under(q, TempDir(outFile, millis).value))
               ==> (q in fs.existing <==> q in old(fs.existing))
  {
    var parent := ParentFile(outFile);
    if parent.None? {
      var _ := fs.Delete(outFile);
      return Failure(Error("can't make tempDir")), None;
    }
    var tempDir := Child(parent.value, TempDirName(millis));
    SiblingsNotUnder(tempDir, outFile);
    fs.Mkdirs(tempDir);
    r, request := RunCompressor(fs, inFile, outFile, tempDir, probe, outcome, active);
    // finally
    SiblingsNotUnder(outFile, tempDir);
    fs.DeleteTree(tempDir);
  }

  /** `transcodeVideo` as written: the `finally` block's `tempDir?.delete()`
      is the non-recursive `File.delete()`, so whatever the compressor left
      in the temporary directory stays there, and so does the directory. */
  method TranscodeVideoAsWritten(fs: FileSystem, inFile: Path, outFile: Path, millis: nat,
                                 probe: Result<VideoInfo>, outcome: SiliOutcome, active: bool)
    returns (r: Result<Path>, request: Option<CompressRequest>)
    requires NoChildren(fs.existing, outFile)
    requires outFile.Child? ==> outFile.name != TempDirName(millis)
    modifies fs
    ensures r == TranscodeResult(outFile, probe, outcome, active)
    ensures request == if outFile.Child? && probe.Success?
      then Some(CompressRequestFor(inFile, TempDir(outFile, millis).value, probe.value)) else None
    ensures outFile in fs.existing <==> r.Success?
    // the directory and the compressor's leftovers survive whenever there are any
    ensures TempDir(outFile, millis).Some? && probe.Success? ==>
      var t := TempDir(outFile, millis).value;
      Leftovers(t, outcome, active) != {} ==> t in fs.existing && Leftovers(t, outcome, active) <= fs.existing
    // with nothing left behind, an initially empty directory is removed
    ensures TempDir(outFile, millis).Some? ==>
      var t := TempDir(outFile, millis).value;
      NoChildren(old(fs.existing), t) && (probe.Failure? || Leftovers(t, outcome, active) == {}) ==> t !in fs.existing
    // nothing else is touched
    ensures forall q :: q != outFile && (TempDir(outFile, millis).Some? ==>
                 q != TempDir(outFile, millis).value && !Under(q, TempDir(outFile, millis).value))
               ==> (q in fs.existing <==> q in old(fs.existing))
  {
    var parent := ParentFile(outFile);
    if parent.None? {
      var _ := fs.Delete(outFile);
      return Failure(Error("can't make tempDir")), None;
    }
    var tempDir := Child(parent.value, TempDirName(millis));
    SiblingsNotUnder(tempDir, outFile);
    fs.Mkdirs(tempDir);
    r, request := RunCompressor(fs, inFile, outFile, tempDir, probe, outcome, active);
    // finally
    SiblingsNotUnder(outFile, tempDir);
    if probe.Success? && Leftovers(tempDir, outcome, active) != {} {
      PlainDeleteKeepsTempDir(fs.existing, tempDir, outcome, active);
    }
    var _ := fs.Delete(tempDir);
  }
}
