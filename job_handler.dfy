/** logic/jobHandler.go: the older per-robot driver. It derives the frame list
    from the manifest in a ReplayJsonContainer, waits for the workers' replies
    and, when asked to, rewrites the manifest's top image names. */
module JobHandler {
  import opened Wrappers
  import opened Types
  import opened Paths
  import opened FrameDerivation
  import opened Containers

  /** HandleReplayJSON's frame loop: one container per record, sources under
      `srcDir` and pngs under `outDir`; a record that names no image ends the
      process */
  method PopulateFrames(records: seq<FrameRecord>, srcDir: string, outDir: string, compression: int)
    returns (status: Status, frames: seq<FrameContainer>)
    ensures status == Ok <==> AllNamed(records)
    ensures status == Ok ==> frames == Frames(records, srcDir, outDir, compression)
    ensures status != Ok ==> status == Fatal(UnnamedFrameMsg)
  {
    frames := seq(|records|, _ => ZeroFrame);
    var i := 0;
    while i < |records|
      invariant 0 <= i <= |records| && |frames| == |records|
      invariant AllNamed(records[..i])
      invariant forall k :: 0 <= k < i ==> Some(frames[k]) == Derive(records[k], srcDir, outDir, compression)
    {
      var fc := BuildFrame(records[i], srcDir, outDir, compression);
      if fc.None? {
        assert !Named(records[i]);
        return Fatal(UnnamedFrameMsg), frames;
      }
      frames := frames[i := fc.value];
      assert records[..i + 1] == records[..i] + [records[i]];
      i := i + 1;
    }
    assert records[..i] == records;
    status := Ok;
  }

  /** The body of Prepare's frame loop for one record: the top image when
      set, else the bottom image; None where Prepare ends the process */
  method BuildFrame(frame: FrameRecord, srcDir: string, outDir: string, compression: int)
    returns (fc: Option<FrameContainer>)
    ensures fc == Derive(frame, srcDir, outDir, compression)
  {
    var imageSize444 := Size(Twice16(frame.imageSize422.width), frame.imageSize422.height);
    var c: FrameContainer;
    if frame.topImage != "" {
      var fPath422Abs := Join(srcDir, frame.topImage);
      var pathPngRel := PngName(frame.topImage);
      c := FrameContainer(true, fPath422Abs, pathPngRel, Join(outDir, pathPngRel), Size(0, 0), Size(0, 0), 0);
    } else if frame.bottomImage != "" {
      var fPath422Abs := Join(srcDir, frame.bottomImage);
      var pathPngRel := PngName(frame.bottomImage);
      c := FrameContainer(false, fPath422Abs, pathPngRel, Join(outDir, pathPngRel), Size(0, 0), Size(0, 0), 0);
    } else {
      return None;
    }
    c := c.(imageSize422 := frame.imageSize422, imageSize444 := imageSize444, compression := compression);
    fc := Some(c);
  }

  /** HandleReplayJSON. The output directory is made absolute against the
      working directory `cwd` and created (`mkdirFailed` says whether that
      failed), but the png paths are joined onto the raw OutputDir. The frames
      go to the workers (`sent` is what is put on the jobs channel, `replies`
      what the workers deliver), exactly one reply per frame is awaited, and
      when ModifyOriginal is set every top frame's record gets its png name,
      whatever the replies said. */
  method HandleReplayJSON(rjc: ReplayJsonContainer, cwd: string, mkdirFailed: bool, replies: seq<WorkerReply>)
    returns (status: Status, sent: seq<FrameContainer>, received: seq<WorkerReply>)
    modifies rjc
    ensures rjc.replayJson.config == old(rjc.replayJson.config)
    ensures rjc.robotName == old(rjc.robotName) && rjc.robotPath == old(rjc.robotPath)
    ensures rjc.outputDir == old(rjc.outputDir) && rjc.replayDirAbs == old(rjc.replayDirAbs)
    ensures rjc.replayJsonPath == old(rjc.replayJsonPath) && rjc.nJobs == old(rjc.nJobs)
    ensures rjc.compressionLevel == old(rjc.compressionLevel) && rjc.modifyOriginal == old(rjc.modifyOriginal)
    ensures mkdirFailed ==> status == Fatal(MkdirMsg(Abs(cwd, Clean(rjc.outputDir))))
    ensures !mkdirFailed && !AllNamed(old(rjc.replayJson.frames)) ==> status == Fatal(UnnamedFrameMsg)
    ensures status != Ok ==> rjc.replayJson == old(rjc.replayJson)
    ensures mkdirFailed || !AllNamed(old(rjc.replayJson.frames)) ==> sent == [] && received == []
    ensures !mkdirFailed && AllNamed(old(rjc.replayJson.frames)) ==>
      var records := old(rjc.replayJson.frames);
      var frames := Frames(records, rjc.replayDirAbs, rjc.outputDir, rjc.compressionLevel);
      var delivered := PoolReplies(rjc.nJobs, replies);
      && sent == frames
      && (status == Ok <==> |frames| <= |delivered|)
      && (status != Ok ==> status == Fatal(DeadlockMsg))
      && (status == Ok ==> received == delivered[..|frames|])
      && (status == Ok ==> rjc.replayJson.frames == if rjc.modifyOriginal then RewriteTopImages(records, frames) else records)
  {
    sent, received := [], [];
    var outputDirAbs := Abs(cwd, Clean(rjc.outputDir));
    if mkdirFailed {
      return Fatal(MkdirMsg(outputDirAbs)), sent, received;
    }
    var st, frames := PopulateFrames(rjc.replayJson.frames, rjc.replayDirAbs, rjc.outputDir, rjc.compressionLevel);
    if st != Ok {
      return st, sent, received;
    }
    sent := frames;
    // The workers started here are not modelled: they deliver `replies`
    var collected := ReceiveReplies(|frames|, PoolReplies(rjc.nJobs, replies));
    if collected == Deadlock {
      return Fatal(DeadlockMsg), sent, received;
    }
    received := collected.replies;
    if rjc.modifyOriginal {
      var rewritten := ApplyRewrite(rjc.replayJson.frames, frames);
      rjc.replayJson := rjc.replayJson.(frames := rewritten);
    }
    status := Ok;
  }
}
