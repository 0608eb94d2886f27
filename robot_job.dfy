/** models/RobotJob.go: the job that converts the frames of one robot's
    replay.json. PrePrepare fills in its configuration, Prepare loads the
    manifest and derives the frame list, Run drives the workers and rewrites
    the manifest. */
module RobotJobs {
  import opened Wrappers
  import opened Types
  import opened Paths
  import opened FrameDerivation

  /** The message of the panic `make([]*png.Encoder, n)` raises for n < 0 */
  const MakeSliceMsg := "makeslice: len out of range"


  /** errors.Check's message when the manifest cannot be loaded */
  function LoadErrorMsg(e: LoadError, path: string): string
  {
    match e
    case ReadError => "Error reading from file " + path
    case ParseError => "Failed to parse json " + path
  }

  /** `n` encoders, all at compression level `level` */
  function EncoderList(n: nat, level: int): (r: seq<Encoder>)
    ensures |r| == n && forall k :: 0 <= k < n ==> r[k] == Encoder(level)
  {
    seq(n, _ => Encoder(level))
  }

  class RobotJob {
    var replayJson: Info
    var replayJsonPath: string
    var replayJsonDir: string
    var outputDir: string
    var robotName: string
    var compressionLevel: int
    var nJobs: int
    var modifyOriginal: bool
    var frames: seq<FrameContainer>
    var encoders: seq<Encoder>

    /** The frame list matches the manifest record for record (both are empty
        until Prepare) */
    ghost predicate Valid()
      reads this
    {
      |frames| == |replayJson.frames|
    }

    /** The configuration PrePrepare sets is left alone by Prepare and Run */
    twostate predicate ConfigUnchanged()
      reads this
    {
      && replayJsonPath == old(replayJsonPath) && replayJsonDir == old(replayJsonDir)
      && outputDir == old(outputDir) && robotName == old(robotName)
      && compressionLevel == old(compressionLevel) && nJobs == old(nJobs)
      && modifyOriginal == old(modifyOriginal)
    }

    /** The state after the zero value has been given its configuration by
        PrePrepare: the manifest directory is the directory of the manifest path
        and the robot name is its grandparent */
    ghost predicate Configured(path: string, outDir: string, n: int, compression: int, rewrite: bool)
      reads this
    {
      && replayJsonPath == path && replayJsonDir == Dir(path)
      && outputDir == outDir && robotName == Dir(Dir(path))
      && nJobs == n && compressionLevel == compression && modifyOriginal == rewrite
      && replayJson == Info([], []) && frames == [] && encoders == []
    }

    /** The state after Prepare and Run both succeeded on manifest `loaded`: the
        frame list is derived from its records, there is one encoder per worker,
        and the manifest is rewritten exactly when modifyOriginal is set */
    ghost predicate Finished(loaded: Info)
      reads this
    {
      && AllNamed(loaded.frames)
      && frames == Frames(loaded.frames, replayJsonDir, outputDir, compressionLevel)
      && nJobs >= 0 && encoders == EncoderList(nJobs, compressionLevel)
      && replayJson == if modifyOriginal then Info(loaded.config, RewriteTopImages(loaded.frames, frames)) else loaded
    }

    /** `var rjc RobotJob`: every field has its zero value */
    constructor ()
      ensures Valid()
      ensures replayJson == Info([], []) && frames == [] && encoders == []
      ensures replayJsonPath == "" && replayJsonDir == "" && outputDir == "" && robotName == ""
      ensures compressionLevel == 0 && nJobs == 0 && !modifyOriginal
    {
      replayJson := Info([], []);
      replayJsonPath, replayJsonDir, outputDir, robotName := "", "", "", "";
      compressionLevel, nJobs, modifyOriginal := 0, 0, false;
      frames, encoders := [], [];
    }

    /** Fills in the configuration: the arguments are copied verbatim (the
        compression level is not validated), the manifest directory is the
        manifest path's directory and the robot name its grandparent. Creating
        the output directory (`mkdirFailed` says whether os.MkdirAll failed)
        comes last; its failure ends the process. */
    method PrePrepare(replayJsonPath: string, outputDir: string, nJobs: int, pngCompression: int, modifyOriginal: bool,
                      mkdirFailed: bool) returns (status: Status)
      requires Valid()
      modifies this
      ensures Valid()
      ensures this.replayJsonPath == replayJsonPath && this.replayJsonDir == Dir(replayJsonPath)
      ensures this.outputDir == outputDir && this.robotName == Dir(Dir(replayJsonPath))
      ensures this.nJobs == nJobs && this.compressionLevel == pngCompression
      ensures this.modifyOriginal == modifyOriginal
      ensures replayJson == old(replayJson) && frames == old(frames) && encoders == old(encoders)
      ensures status == if mkdirFailed then Fatal(MkdirMsg(outputDir)) else Ok
    {
      this.replayJsonPath := replayJsonPath;
      this.replayJsonDir := Dir(replayJsonPath);
      this.outputDir := outputDir;
      this.robotName := Dir(Dir(replayJsonPath));
      this.nJobs := nJobs;
      this.compressionLevel := pngCompression;
      this.modifyOriginal := modifyOriginal;
      status := if mkdirFailed then Fatal(MkdirMsg(outputDir)) else Ok;
    }

    /** Loads the manifest (`loaded` is what reading and parsing replay.json
        gave) and builds one frame container per record, in record order. A
        load error or a record with neither image name ends the process; the
        containers before the offending record have been built by then. */
    method Prepare(loaded: Result<Info, LoadError>) returns (status: Status)
      requires Valid()
      modifies this
      ensures Valid() && ConfigUnchanged() && encoders == old(encoders)
      ensures loaded.Failure? ==>
        status == Fatal(LoadErrorMsg(loaded.error, replayJsonPath)) && replayJson == old(replayJson) && frames == old(frames)
      ensures loaded.Success? ==> replayJson == loaded.value
      ensures loaded.Success? ==> (status == Ok <==> AllNamed(loaded.value.frames))
      ensures loaded.Success? && status == Ok ==>
        frames == Frames(loaded.value.frames, replayJsonDir, outputDir, compressionLevel)
      ensures loaded.Success? && status != Ok ==>
        var records := loaded.value.frames;
        status == Fatal(UnnamedFrameMsg) &&
        exists bad :: 0 <= bad < |records| && !Named(records[bad]) && AllNamed(records[..bad])
          && forall k :: 0 <= k < bad ==> Some(frames[k]) == Derive(records[k], replayJsonDir, outputDir, compressionLevel)
    {
      if loaded.Failure? {
        return Fatal(LoadErrorMsg(loaded.error, replayJsonPath));
      }
      replayJson := loaded.value;
      var records := replayJson.frames;
      var dir, outDir, level := replayJsonDir, outputDir, compressionLevel;
      frames := seq(|records|, _ => ZeroFrame);
      var i := 0;
      while i < |records|
        invariant 0 <= i <= |records| && |frames| == |records|
        invariant replayJson == loaded.value && ConfigUnchanged() && encoders == old(encoders)
        invariant AllNamed(records[..i])
        invariant dir == replayJsonDir && outDir == outputDir && level == compressionLevel
        invariant forall k :: 0 <= k < i ==> Some(frames[k]) == Derive(records[k], dir, outDir, level)
      {
        var frame := records[i];
        var imageSize444 := Size(Twice16(frame.imageSize422.width), frame.imageSize422.height);
        var fc: FrameContainer;
        if frame.topImage != "" {
          var fPath422Abs := Join(dir, frame.topImage);
          var pathPngRel := PngName(frame.topImage);
          fc := FrameContainer(true, fPath422Abs, pathPngRel, Join(outDir, pathPngRel), Size(0, 0), Size(0, 0), 0);
        } else if frame.bottomImage != "" {
          var fPath422Abs := Join(dir, frame.bottomImage);
          var pathPngRel := PngName(frame.bottomImage);
          fc := FrameContainer(false, fPath422Abs, pathPngRel, Join(outDir, pathPngRel), Size(0, 0), Size(0, 0), 0);
        } else {
          assert records[..i + 1][..i] == records[..i];
          return Fatal(UnnamedFrameMsg);
        }
        fc := fc.(imageSize422 := frame.imageSize422, imageSize444 := imageSize444, compression := level);
        assert Some(fc) == Derive(records[i], dir, outDir, level);
        frames := frames[i := fc];
        assert records[..i + 1] == records[..i] + [records[i]];
        i := i + 1;
      }
      assert records[..i] == records;
      status := Ok;
    }

    /** Starts nJobs encoders, waits for one reply per frame and, when
        modifyOriginal is set, rewrites the manifest's topImage of every top
        frame to its png name, whether or not that frame was converted.
        `replies` are the replies the workers send, in arrival order. */
    method Run(replies: seq<WorkerReply>) returns (status: Status, received: seq<WorkerReply>)
      requires Valid()
      modifies this
      ensures Valid() && ConfigUnchanged() && frames == old(frames)
      ensures nJobs < 0 ==> status == Fatal(MakeSliceMsg) && encoders == old(encoders)
      ensures nJobs >= 0 ==> encoders == EncoderList(nJobs, compressionLevel)
      ensures nJobs >= 0 ==> (status == Ok <==> |frames| <= |PoolReplies(nJobs, replies)|)
      ensures nJobs >= 0 && status != Ok ==> status == Fatal(DeadlockMsg)
      ensures status == Ok ==> received == PoolReplies(nJobs, replies)[..|frames|]
      ensures status != Ok ==> replayJson == old(replayJson)
      ensures status == Ok ==>
        replayJson == if modifyOriginal then Info(old(replayJson).config, RewriteTopImages(old(replayJson).frames, frames))
                      else old(replayJson)
    {
      received := [];
      if nJobs < 0 {
        return Fatal(MakeSliceMsg), received;
      }
      // Populate the list of encoders
      encoders := [];
      var e := 0;
      while e < nJobs
        invariant 0 <= e <= nJobs
        invariant encoders == EncoderList(e, compressionLevel)
        invariant replayJson == old(replayJson) && frames == old(frames) && ConfigUnchanged()
      {
        encoders := encoders + [Encoder(compressionLevel)];
        e := e + 1;
      }
      // The workers started here are not modelled: they deliver `replies`
      var collected := ReceiveReplies(|frames|, PoolReplies(nJobs, replies));
      if collected == Deadlock {
        return Fatal(DeadlockMsg), received;
      }
      received := collected.replies;
      if modifyOriginal {
        ghost var records := replayJson.frames;
        var i := 0;
        while i < |frames|
          invariant 0 <= i <= |frames| == |records|
          invariant frames == old(frames) && ConfigUnchanged() && records == old(replayJson).frames
          invariant replayJson == Info(old(replayJson).config, RewriteTopImages(records, frames[..i]))
          invariant encoders == EncoderList(nJobs, compressionLevel)
        {
          var frame := frames[i];
          if frame.isTop {
            replayJson := replayJson.(frames := replayJson.frames[i := replayJson.frames[i].(topImage := frame.pngFileName)]);
          }
          assert RewriteTopImages(records, frames[..i + 1]) == replayJson.frames;
          i := i + 1;
        }
        assert frames[..i] == frames;
      }
      status := Ok;
    }
  }
}
