/** The rules every version of the session driver (models/RobotJob.go,
    logic/jobHandler.go, main.go) shares: which camera image a manifest record
    names, the png name and size derived from it, the manifest rewrite, and the
    loop that waits for the workers' replies. */
module FrameDerivation {
  import opened Wrappers
  import opened Types
  import opened Strings
  import opened Paths

  /** The packed-format extension and the one that replaces it */
  const PackedExt := ".422"
  const PngExt := ".png"

  /** strings.Replace(name, ".422", ".png", 1) */
  function PngName(name: string): (r: string)
    ensures |r| == |name|
  {
    ReplaceFirstSameLength(name, PackedExt, PngExt);
    ReplaceFirst(name, PackedExt, PngExt)
  }

  /** The png name differs from the source name exactly when the source name
      contains ".422" */
  lemma PngNameShape(name: string)
    ensures PngName(name) == name <==> Index(name, PackedExt).None?
  {
    ReplaceFirstSameLength(name, PackedExt, PngExt);
  }

  /** Replacing in a joined path replaces in its last element, as long as the
      directory part has no ".422" of its own */
  lemma PngNameOfJoin(dir: string, name: string)
    requires Index(dir, PackedExt).None?
    ensures PngName(Join(dir, name)) == Join(dir, PngName(name))
  {
    PngNameShape(name);
    if dir != "" && name != "" {
      var s := dir + [Separator] + name;
      assert Join(dir, name) == s;
      IndexAfterSeparator(dir, Separator, name, PackedExt);
      match Index(name, PackedExt)
      case None =>
      case Some(k) =>
        ReplaceInJoined(dir, name, k);
    }
  }

  lemma ReplaceInJoined(dir: string, name: string, k: nat)
    requires k + 4 <= |name| && dir != ""
    ensures var s := dir + [Separator] + name; var m := |dir| + 1 + k;
      s[..m] + PngExt + s[m + 4..] == dir + [Separator] + (name[..k] + PngExt + name[k + 4..])
  {
    var s := dir + [Separator] + name;
    var m := |dir| + 1 + k;
    assert s[..m] == dir + [Separator] + name[..k];
    assert s[m + 4..] == name[k + 4..];
  }

  /** The 4:4:4 size of a 4:2:2 size: twice the width in uint16 arithmetic */
  function Size444(s: Size): Size
  {
    Size(Twice16(s.width), s.height)
  }

  /** A record names at least one camera image */
  predicate Named(rec: FrameRecord)
  {
    rec.topImage != "" || rec.bottomImage != ""
  }

  predicate AllNamed(records: seq<FrameRecord>)
  {
    forall i :: 0 <= i < |records| ==> Named(records[i])
  }

  /** The camera (true for top) and image name a record refers to: the top image
      when set, else the bottom image; None when neither is set */
  function SourceImage(rec: FrameRecord): Option<(bool, string)>
  {
    if rec.topImage != "" then Some((true, rec.topImage))
    else if rec.bottomImage != "" then Some((false, rec.bottomImage))
    else None
  }

  /** The FrameContainer built for one record by RobotJob.Prepare (sources under
      `srcDir`, pngs under `outDir`) */
  function Derive(rec: FrameRecord, srcDir: string, outDir: string, compression: int): (r: Option<FrameContainer>)
    ensures r.Some? <==> Named(rec)
    ensures r.Some? ==> HasPrefix(r.value.pathPngAbs, outDir)
  {
    match SourceImage(rec)
    case None => None
    case Some((isTop, name)) =>
      var png := PngName(name);
      Some(FrameContainer(isTop, Join(srcDir, name), png, Join(outDir, png),
                          rec.imageSize422, Size444(rec.imageSize422), compression))
  }

  /** The frame derived from a record: it exists iff a name is set; it is a top
      frame iff the top name is set, so the top camera wins when both are; its
      png name is as long as the source name and lies under the output
      directory; the width doubles modulo 2^16 and the height is kept. */
  lemma DeriveSpec(rec: FrameRecord, srcDir: string, outDir: string, compression: int)
    ensures Derive(rec, srcDir, outDir, compression).Some? <==> Named(rec)
    ensures Derive(rec, srcDir, outDir, compression).Some? ==>
      var f := Derive(rec, srcDir, outDir, compression).value;
      var name := if rec.topImage != "" then rec.topImage else rec.bottomImage;
      && (f.isTop <==> rec.topImage != "")
      && f.path422 == Join(srcDir, name)
      && f.pngFileName == PngName(name) && |f.pngFileName| == |name|
      && f.pathPngAbs == Join(outDir, f.pngFileName) && HasPrefix(f.pathPngAbs, outDir)
      && f.imageSize422 == rec.imageSize422
      && f.imageSize444.width == (2 * rec.imageSize422.width) % 0x1_0000
      && f.imageSize444.height == rec.imageSize422.height
      && f.compression == compression
  {
    if Named(rec) {
      var name := if rec.topImage != "" then rec.topImage else rec.bottomImage;
      PngNameShape(name);
      JoinUnder(outDir, PngName(name));
    }
  }

  /** The frame list of a manifest whose records all name an image, one
      container per record, in record order */
  function Frames(records: seq<FrameRecord>, srcDir: string, outDir: string, compression: int): (r: seq<FrameContainer>)
    requires AllNamed(records)
    ensures |r| == |records|
    ensures forall i :: 0 <= i < |r| ==> Some(r[i]) == Derive(records[i], srcDir, outDir, compression)
  {
    seq(|records|, i requires 0 <= i < |records| => Derive(records[i], srcDir, outDir, compression).value)
  }

  /** Every png of a frame list is written under the output directory */
  lemma FramesUnderOutputDir(records: seq<FrameRecord>, srcDir: string, outDir: string, compression: int)
    requires AllNamed(records)
    ensures forall f :: f in Frames(records, srcDir, outDir, compression) ==> HasPrefix(f.pathPngAbs, outDir)
  {
    var fs := Frames(records, srcDir, outDir, compression);
    forall f | f in fs
      ensures HasPrefix(f.pathPngAbs, outDir)
    {
      var i :| 0 <= i < |fs| && fs[i] == f;
      DeriveSpec(records[i], srcDir, outDir, compression);
    }
  }

  /** The manifest rewrite: the record of each top-camera frame gets the frame's
      png name as its topImage; nothing else of any record changes */
  function RewriteTopImages(records: seq<FrameRecord>, frames: seq<FrameContainer>): (r: seq<FrameRecord>)
    requires |frames| <= |records|
    ensures |r| == |records|
    ensures forall i :: 0 <= i < |r| ==> r[i].(topImage := records[i].topImage) == records[i]
  {
    seq(|records|, i requires 0 <= i < |records| =>
      if i < |frames| && frames[i].isTop then records[i].(topImage := frames[i].pngFileName) else records[i])
  }

  /** Rewriting with the frame list derived from the same records: a record with
      a top image gets that name with ".422" replaced by ".png"; a bottom-camera
      record is left entirely unchanged */
  lemma {:induction false} RewriteAfterDerive(records: seq<FrameRecord>, srcDir: string, outDir: string, compression: int)
    requires AllNamed(records)
    ensures var r := RewriteTopImages(records, Frames(records, srcDir, outDir, compression));
      forall i :: 0 <= i < |records| ==>
        r[i] == if records[i].topImage != "" then records[i].(topImage := PngName(records[i].topImage))
                else records[i]
  {
    var fs := Frames(records, srcDir, outDir, compression);
    forall i | 0 <= i < |records|
      ensures fs[i].isTop <==> records[i].topImage != ""
      ensures fs[i].isTop ==> fs[i].pngFileName == PngName(records[i].topImage)
    {
      DeriveSpec(records[i], srcDir, outDir, compression);
    }
  }

  /** Rewriting twice with the same frame list changes nothing more */
  lemma RewriteIdempotent(records: seq<FrameRecord>, frames: seq<FrameContainer>)
    requires |frames| <= |records|
    ensures RewriteTopImages(RewriteTopImages(records, frames), frames) == RewriteTopImages(records, frames)
  {
  }

  /** The rewrite loop of the older drivers (main.go, logic/jobHandler.go) on
      the manifest's records: visits the frames in order and patches the record
      of each top frame. Indexing a record past the end would panic, hence the
      requires; frames derived from the records are as many as they are. */
  method ApplyRewrite(records: seq<FrameRecord>, frames: seq<FrameContainer>) returns (r: seq<FrameRecord>)
    requires |frames| <= |records|
    ensures r == RewriteTopImages(records, frames)
  {
    r := records;
    var i := 0;
    while i < |frames|
      invariant 0 <= i <= |frames|
      invariant r == RewriteTopImages(records, frames[..i])
    {
      if frames[i].isTop {
        r := r[i := r[i].(topImage := frames[i].pngFileName)];
      }
      assert RewriteTopImages(records, frames[..i + 1]) == r;
      i := i + 1;
    }
    assert frames[..i] == frames;
  }

  /** The replies the workers deliver: with no worker started, none */
  function PoolReplies(nWorkers: int, replies: seq<WorkerReply>): seq<WorkerReply>
  {
    if nWorkers > 0 then replies else []
  }

  /** How the driver's reply loop ends */
  datatype Collected = Collected(replies: seq<WorkerReply>) | Deadlock

  /** The driver's reply loop: it receives exactly n replies (one per frame) in
      arrival order, whatever their success; it blocks for ever, which the Go
      runtime reports as a deadlock, when fewer arrive. */
  method ReceiveReplies(n: nat, delivered: seq<WorkerReply>) returns (c: Collected)
    ensures n <= |delivered| ==> c == Collected(delivered[..n])
    ensures n > |delivered| ==> c == Deadlock
  {
    var received: seq<WorkerReply> := [];
    var i := 0;
    while i < n
      invariant 0 <= i <= n && i <= |delivered|
      invariant received == delivered[..i]
    {
      if i == |delivered| {
        return Deadlock;
      }
      var reply := delivered[i];
      received := received + [reply];
      i := i + 1;
    }
    c := Collected(received);
  }

  /** The literal log.Fatalln is given for a record that names no image (the
      record itself, which log.Fatalln prints after it, is not part of it) */
  const UnnamedFrameMsg := "This frame has neither topImage nor bottomImage: \n"

  /** errors.Check's message when the output directory cannot be created */
  function MkdirMsg(dir: string): string
  {
    "Error creating output dir at " + dir
  }

  /** The message the Go runtime ends a deadlocked process with */
  const DeadlockMsg := "all goroutines are asleep - deadlock!"
}
