/** main.go: the first, single-session version of the converter. It loads one
    replay directory's manifest, derives the frame list, converts the frames
    with a pool of workers and then always rewrites the manifest's top image
    names. Its frames carry no compression level (the png encoder's default,
    0 here). */
module MainProgram {
  import opened Wrappers
  import opened Types
  import opened Strings
  import opened Paths
  import opened Converter
  import opened FrameDerivation
  import opened Util

  /** The remap loop of convertToPng: the same shuffle as ConvertFrameToPng,
      written straight into pix without scratch arrays. Bytes from 2*|bytes|
      on are left as they were. The Go loop indexes out of range unless the
      requires hold. */
  method FillPixDirect(bytes: seq<uint8>, pix: array<uint8>)
    requires |bytes| % 4 == 0 && 2 * |bytes| <= pix.Length
    modifies pix
    ensures pix[..] == Expand(bytes) + old(pix[2 * |bytes|..])
  {
    ghost var e := Expand(bytes);
    var i := 0;
    while i < |bytes|
      invariant 0 <= i <= |bytes| && i % 4 == 0
      invariant forall k :: 0 <= k < 2 * i ==> pix[k] == e[k]
      invariant forall k :: 2 * i <= k < pix.Length ==> pix[k] == old(pix[k])
    {
      var y1, cb, y2, cr := bytes[i], bytes[i + 1], bytes[i + 2], bytes[i + 3];
      ExpandGroup(bytes, i);
      StoreGroup(pix, i * 2, y1, cb, y2, cr);
      i := i + 4;
    }
    assert pix[..] == e + old(pix[2 * |bytes|..]);
  }

  /** The eight writes of one group at pix[i2..i2+8], nothing else */
  method StoreGroup(pix: array<uint8>, i2: nat, y1: uint8, cb: uint8, y2: uint8, cr: uint8)
    requires i2 + 8 <= pix.Length
    modifies pix
    ensures forall k :: 0 <= k < pix.Length ==>
      pix[k] == if i2 <= k < i2 + 8 then RgbaPair(y1, cb, y2, cr)[k - i2] else old(pix[k])
  {
    pix[i2 + 0] := y1;
    pix[i2 + 1] := cb;
    pix[i2 + 2] := cr;
    pix[i2 + 3] := 255;
    pix[i2 + 4] := y2;
    pix[i2 + 5] := cb;
    pix[i2 + 6] := cr;
    pix[i2 + 7] := 255;
  }

  /** convertToPng up to the encoding step: the same result as
      Converter.ConvertFrameToPng */
  method ConvertToPng(read: Result<seq<uint8>, string>, fc: FrameContainer) returns (r: Conversion)
    ensures read.Failure? ==> r == ReadFailed(read.error)
    ensures read.Success? ==>
      var b := read.value;
      var n := 4 * fc.imageSize444.width * fc.imageSize444.height;
      if |b| % 4 == 0 && 2 * |b| <= n
      then r.Converted? && |r.pix| == n && r.pix[..2 * |b|] == Expand(b)
           && forall k :: 2 * |b| <= k < n ==> r.pix[k] == 0
      else r == IndexOutOfRange
  {
    if read.Failure? {
      return ReadFailed(read.error);
    }
    var bytes := read.value;
    var img := NewRgbaPix(fc.imageSize444.width, fc.imageSize444.height);
    if |bytes| % 4 != 0 || 2 * |bytes| > img.Length {
      return IndexOutOfRange;
    }
    FillPixDirect(bytes, img);
    r := Converted(img[..]);
  }

  /** The frame main.go builds for one record of the manifest in
      `replayDirAbs`: the png path is the source path with its first ".422"
      replaced, so the png lands beside the source, not in the output
      directory */
  function MainDerive(rec: FrameRecord, replayDirAbs: string): (r: Option<FrameContainer>)
    ensures r.Some? <==> Named(rec)
    ensures r.Some? ==> (r.value.isTop <==> rec.topImage != "") && r.value.compression == 0
  {
    match SourceImage(rec)
    case None => None
    case Some((isTop, name)) =>
      var fPath := Join(replayDirAbs, name);
      Some(FrameContainer(isTop, fPath, PngName(name), PngName(fPath),
                          rec.imageSize422, Size444(rec.imageSize422), 0))
  }

  /** main.go's frame list for a manifest whose records all name an image */
  function MainFrames(records: seq<FrameRecord>, replayDirAbs: string): (r: seq<FrameContainer>)
    requires AllNamed(records)
    ensures |r| == |records|
    ensures forall i :: 0 <= i < |r| ==> Some(r[i]) == MainDerive(records[i], replayDirAbs)
  {
    seq(|records|, i requires 0 <= i < |records| => MainDerive(records[i], replayDirAbs).value)
  }

  /** The body of main's frame loop for one record; None where main ends
      the process */
  method MainBuildFrame(frame: FrameRecord, replayDirAbs: string) returns (fc: Option<FrameContainer>)
    ensures fc == MainDerive(frame, replayDirAbs)
  {
    var imageSize444 := Size(Twice16(frame.imageSize422.width), frame.imageSize422.height);
    if frame.topImage != "" {
      var fPath := Join(replayDirAbs, frame.topImage);
      fc := Some(FrameContainer(true, fPath, PngName(frame.topImage), PngName(fPath), frame.imageSize422, imageSize444, 0));
    } else if frame.bottomImage != "" {
      var fPath := Join(replayDirAbs, frame.bottomImage);
      fc := Some(FrameContainer(false, fPath, PngName(frame.bottomImage), PngName(fPath), frame.imageSize422, imageSize444, 0));
    } else {
      fc := None;
    }
  }

  /** main.go's frame loop; a record that names no image ends the process */
  method PopulateFrames(records: seq<FrameRecord>, replayDirAbs: string) returns (status: Status, frames: seq<FrameContainer>)
    ensures status == Ok <==> AllNamed(records)
    ensures status == Ok ==> frames == MainFrames(records, replayDirAbs)
    ensures status != Ok ==> status == Fatal(UnnamedFrameMsg)
  {
    frames := seq(|records|, _ => ZeroFrame);
    var i := 0;
    while i < |records|
      invariant 0 <= i <= |records| && |frames| == |records|
      invariant AllNamed(records[..i])
      invariant forall k :: 0 <= k < i ==> Some(frames[k]) == MainDerive(records[k], replayDirAbs)
    {
      var fc := MainBuildFrame(records[i], replayDirAbs);
      if fc.None? {
        assert !Named(records[i]);
        return Fatal(UnnamedFrameMsg), frames;
      }
      frames := frames[i := fc.value];
      assert records[..i + 1] == records[..i] + [records[i]];
      i := i + 1;
    }
    assert records[..i] == records;
    status := Ok;
  }

  /** When the replay directory's path has no ".422" in it, main.go's frame is
      the one the later drivers derive with the replay directory as output
      directory: the pngs are written beside the sources */
  lemma MainDeriveBesideSource(rec: FrameRecord, replayDirAbs: string)
    requires Index(replayDirAbs, PackedExt).None?
    ensures MainDerive(rec, replayDirAbs) == Derive(rec, replayDirAbs, replayDirAbs, 0)
  {
    match SourceImage(rec)
    case None =>
    case Some((isTop, name)) =>
      PngNameOfJoin(replayDirAbs, name);
  }

  /** main.go's manifest rewrite gives the same records as the later drivers':
      only the png names and cameras of the frames matter, and those do not
      depend on where the pngs are written */
  lemma MainRewriteAgrees(records: seq<FrameRecord>, replayDirAbs: string, outDir: string, compression: int)
    requires AllNamed(records)
    ensures RewriteTopImages(records, MainFrames(records, replayDirAbs))
         == RewriteTopImages(records, Frames(records, replayDirAbs, outDir, compression))
  {
    var mf := MainFrames(records, replayDirAbs);
    var fs := Frames(records, replayDirAbs, outDir, compression);
    forall i | 0 <= i < |records|
      ensures mf[i].isTop == fs[i].isTop && mf[i].pngFileName == fs[i].pngFileName
    {
      assert Some(mf[i]) == MainDerive(records[i], replayDirAbs);
      assert Some(fs[i]) == Derive(records[i], replayDirAbs, outDir, compression);
    }
  }

  /** The output directory is ignored: when the replay directory is not
      under the output directory (and no longer than it is), no png path of
      main.go lies under the output directory, while the derivation of the
      later drivers puts every png there (FramesUnderOutputDir). For example
      the png of "a.422" from /data/s is /data/s/a.png, whatever the output
      directory. */
  lemma MainIgnoresOutputDir(rec: FrameRecord, dir: string, out: string)
    requires Named(rec) && Index(dir, PackedExt).None?
    requires |out| <= |dir| && !HasPrefix(dir, out)
    ensures !HasPrefix(MainDerive(rec, dir).value.pathPngAbs, out)
  {
    MainDeriveBesideSource(rec, dir);
    var p := MainDerive(rec, dir).value.pathPngAbs;
    var name := if rec.topImage != "" then rec.topImage else rec.bottomImage;
    PngNameShape(name);
    assert p == Join(dir, PngName(name));
    assert p[..|dir|] == dir;
    assert p[..|out|] == p[..|dir|][..|out|];
  }

  /** The replacement applies to the whole path: when the replay directory's
      path contains ".422" (first at `k`), that occurrence is replaced and the
      file name keeps its ".422", so the png path names a directory that was
      never created. For example "a.422" in /d.422 becomes /d.png/a.422. */
  lemma MainReplacesInDirectory(rec: FrameRecord, dir: string, k: nat)
    requires Named(rec) && Index(dir, PackedExt) == Some(k)
    ensures var name := if rec.topImage != "" then rec.topImage else rec.bottomImage;
      MainDerive(rec, dir).value.pathPngAbs == dir[..k] + PngExt + dir[k + 4..] + [Separator] + name
  {
    var name := if rec.topImage != "" then rec.topImage else rec.bottomImage;
    assert MainDerive(rec, dir).value.pathPngAbs == PngName(Join(dir, name));
    PngNameInDir(dir, name, k);
  }

  /** The first ".422" of a joined path is the directory's, when it has one */
  lemma PngNameInDir(dir: string, name: string, k: nat)
    requires name != "" && Index(dir, PackedExt) == Some(k)
    ensures PngName(Join(dir, name)) == dir[..k] + PngExt + dir[k + 4..] + [Separator] + name
  {
    var tail := [Separator] + name;
    var s := dir + tail;
    assert Join(dir, name) == s;
    IndexOfExtended(dir, tail, PackedExt, k);
    assert PngName(s) == s[..k] + PngExt + s[k + 4..];
    assert s[..k] == dir[..k];
    assert s[k + 4..] == dir[k + 4..] + tail;
  }

  /** main: the replay directory and the output directory are made absolute
      against the working directory `cwd`; `loaded` is what loading the
      manifest gave, `mkdirFailed` whether creating the output directory
      failed, and `replies` what the `nJobs` workers deliver. After exactly one
      reply per frame, the manifest is always rewritten, whatever the replies
      said: `path` and `written` are the file and the content written back.
      `sent` is what is put on the jobs channel and `received` the replies
      taken from the reply channel. */
  method RunMain(replayDir: string, outputDir: string, nJobs: int, cwd: string,
                 loaded: Result<Info, LoadError>, mkdirFailed: bool, replies: seq<WorkerReply>)
    returns (status: Status, sent: seq<FrameContainer>, received: seq<WorkerReply>, path: string, written: Info)
    ensures loaded.Failure? ==> status.Fatal?
    ensures loaded.Failure? || mkdirFailed || !AllNamed(loaded.value.frames) ==> sent == [] && received == []
    ensures loaded.Success? && mkdirFailed ==> status == Fatal(MkdirMsg(Abs(cwd, Clean(outputDir))))
    ensures loaded.Success? && !mkdirFailed && !AllNamed(loaded.value.frames) ==> status == Fatal(UnnamedFrameMsg)
    ensures loaded.Success? && !mkdirFailed && AllNamed(loaded.value.frames) ==>
      var records := loaded.value.frames;
      var frames := MainFrames(records, Abs(cwd, Clean(replayDir)));
      var delivered := PoolReplies(nJobs, replies);
      && sent == frames
      && (status == Ok <==> |frames| <= |delivered|)
      && (status != Ok ==> status == Fatal(DeadlockMsg))
      && (status == Ok ==> received == delivered[..|frames|])
      && (status == Ok ==> path == ReplayJsonPathFor(cwd, replayDir)
                           && written == Info(loaded.value.config, RewriteTopImages(records, frames)))
  {
    sent, received, path, written := [], [], "", Info([], []);
    var replayDirAbs := Abs(cwd, Clean(replayDir));
    var replayJsonPath := Join(replayDirAbs, ReplayJsonName);
    if loaded.Failure? {
      return Fatal(LoadMsg(loaded.error)), sent, received, path, written;
    }
    var replayJson := loaded.value;
    var outputDirAbs := Abs(cwd, Clean(outputDir));
    if mkdirFailed {
      return Fatal(MkdirMsg(outputDirAbs)), sent, received, path, written;
    }
    var st, frames := PopulateFrames(replayJson.frames, replayDirAbs);
    if st != Ok {
      return st, sent, received, path, written;
    }
    sent := frames;
    // The workers started here are not modelled: they deliver `replies`
    var collected := ReceiveReplies(|frames|, PoolReplies(nJobs, replies));
    if collected == Deadlock {
      return Fatal(DeadlockMsg), sent, received, path, written;
    }
    received := collected.replies;
    var rewritten := ApplyRewrite(replayJson.frames, frames);
    replayJson := replayJson.(frames := rewritten);
    status, path, written := Ok, replayJsonPath, replayJson;
  }
}
