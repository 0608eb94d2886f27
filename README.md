# replay422toPngConverter in Dafny

This project models the core of a converter that turns packed YUV 4:2:2 camera frames
into RGBA PNG images, and that can rewrite the replay manifest (`replay.json`) so that
it names the converted images. It covers the current version of the program in full:

- `converter/converter.go`: the pixel remap.
- `models/RobotJob.go`: one robot session. It configures the session, loads the manifest, derives the frame list, waits for the workers and rewrites the manifest.
- `models/CollectionJob.go`: discovers the sessions under a root directory and runs them one after another.
- `util/util.go`: the first-match directory search, locating and loading a manifest, and `~` expansion.

Three older drivers of the same logic are modelled as variants. They share the frame
derivation and rewrite lemmas with the current version:

- `main.go`: single session. It uses an unrolled remap and always rewrites the manifest.
- `logic/jobHandler.go`: one container per session, with a rewrite that depends on a flag.
- `logic/superJobHandling.go`: discovery and a sequential drain over containers.

## How the model is built

- **Pixel remap.** It is an in-place loop over an `array<uint8>` and is proved against
  the function `Converter.Expand`. Output byte `k` is byte `k % 8` of the expansion of
  group `k / 8`. A group `(y1, cb, y2, cr)` expands to `(y1, cb, cr, 255)`
  followed by `(y2, cb, cr, 255)`. The buffer is sized from the target size alone, so
  a short input leaves a zero tail. An input whose length is not a multiple of 4, or
  that is too long for the buffer, makes the Go loop index out of range. The model
  returns `IndexOutOfRange` in that case.
- **Frame derivation and rewrite.** These live in `FrameDerivation` and are shared by
  every driver. `Derive` maps one manifest record to a frame container:
  - the top image wins over the bottom image;
  - the width is doubled modulo 2^16;
  - the first ".422" in the name is replaced by ".png";
  - the png path is the output directory joined with the png name.

  `RewriteTopImages` patches only the `topImage` of the top frames.
- **Objects the source updates in place are classes.** These are `RobotJob`,
  `CollectionJob`, `ReplayJsonContainer` and `SuperJob`. Their methods carry
  `modifies` clauses.
  - The configuring and loading methods state every field they leave.
  - The two drains, `CollectionJob.Run` and `HandleSuperJob`, state the outcome,
    the queue and the flags they leave, and what became of each job drained before
    the stop. On a stop the queue holds the jobs after the stopping one.
    `CollectionJob.Run` keeps every job's configuration but does not state the
    frames and manifest of the job that stopped it. `HandleSuperJob` does not state
    the state of the stopping copy, which is dropped.
- **The super job's queue holds values.** In the Go code it is a channel of struct
  values, so `HandleSuperJob` copies each queued value into a container of its own
  before handling it.
- **I/O is passed in as parameters.** Everything the program reads from the outside
  world is a parameter:
  - directory listings (`Listing`);
  - the parsed manifest (`loaded`);
  - whether creating a directory fails (`mkdirFailed`);
  - the working and home directories;
  - the replies the worker pool delivers.
- **Process aborts are `Fatal(msg)` statuses.** This covers `errors.Check`,
  `log.Fatalln`, index-out-of-range panics and the Go runtime's deadlock detection.

The code behaves in these ways, and the model follows it:

- **The rewrite ignores conversion results.** Every top frame's `TopImage` is patched,
  whether or not its conversion succeeded. No driver reads a worker's success flag
  before the rewrite.
- **Malformed input is not rejected up front.** An input of the wrong length is not
  rejected before any write. A short input is accepted and leaves a zero tail, and a
  long or misaligned one panics.
- **The width doubling wraps.** The target width is computed in uint16 arithmetic, so
  it wraps around modulo 2^16.
- **The replay directory is the first match.** It is the first "replay_*" entry of the
  listing, not a uniquely matching one.
- **The compression level is not validated.** It is passed through as an integer.
- `CollectionJob.PrePrepare` names the never-assigned `RootDir` field in its
  listing-error message, rather than the directory it listed.
- `BuildSuperJob` copies `OutputDir` from `ReplayDirAbs` while that field is still empty.
  Every png of a super job is therefore written relative to the working directory.
  `SuperJobs.SuperJobPngsBare` states this for the frames each handled container
  hands to the workers.
- `HandleSuperJob`'s not-found message names the still-empty `ReplayDirAbs`.

## Model

| member | source | states |
|---|---|---|
| Types.Twice16 | models/RobotJob.go:59 | Doubling a uint16 width is exact below 2^15 and wraps around by 2^16 from there on. |
| Converter.Expand | converter/converter.go:40-50 | The expansion of an aligned input is twice as long as the input. |
| Converter.ExpandGroup | converter/converter.go:42-49 | The group at input offset i (a multiple of 4) produces output bytes 2i..2i+7 as y1, cb, cr, 255, y2, cb, cr, 255. The bytes are taken from b[i..i+4] in positional order. |
| Converter.ExpandByte | converter/converter.go:40-50 | Every output byte below 2*len(bytes) lies in exactly one group's 8-byte window, and its value depends on that group alone. The windows are disjoint. |
| Converter.WindowOf | converter/converter.go:40-48 | The index arithmetic behind ExpandByte: the window [2i, 2i+8) of group i = k/8*4 holds output byte k, and no other group's window holds it. |
| Converter.ExpandOpaque | converter/converter.go:46 | The alpha byte of every written pixel is 255. |
| Converter.ExpandExample | converter/converter.go:44-48 | The group (0x10, 0x20, 0x30, 0x40) becomes 0x10, 0x20, 0x40, 0xFF, 0x30, 0x20, 0x40, 0xFF. |
| Converter.Get4Bytes | converter/converter.go:15-17 | The four results are the scratch array's elements, in positional order. |
| Converter.NewRgbaPix | converter/converter.go:37 | The image buffer is a fresh array of 4*W*H zero bytes. |
| Converter.LoadPair | converter/converter.go:41-43 | The copy loop fills the scratch pair with bytes[i..i+4], in order. |
| Converter.StorePair | converter/converter.go:47-49 | The store loop writes the 8 scratch bytes to pix[2i..2i+8] and changes no other byte. |
| Converter.FillPix | converter/converter.go:40-50 | When the length is a multiple of 4 and 2*len(bytes) fits the buffer, the remap loop leaves pix equal to Expand(bytes), followed by the untouched old tail. |
| Converter.ConvertFrameToPng | converter/converter.go:20-57 | A read error is returned before anything is allocated or written. Otherwise the buffer has 4*W*H bytes whatever the input length. An aligned input that fits gives Expand(bytes) followed by zeros. Any other input indexes out of range. |
| Converter.FullFrameFillsImage | converter/converter.go:37-40 | An input of exactly 4*w*h bytes for a 4:2:2 size (w, h) with w below 2^15 meets the remap's preconditions and fills the whole 2w x h image. |
| FrameDerivation.PngName | models/RobotJob.go:64 | strings.Replace with ".png" for the first ".422" keeps the name's length. |
| FrameDerivation.PngNameShape | models/RobotJob.go:64 | The png name differs from the source name exactly when the name contains ".422". |
| FrameDerivation.PngNameOfJoin | main.go:159-160 | Replacing in a joined path replaces in the file name when the directory part has no ".422" of its own. |
| FrameDerivation.Derive | models/RobotJob.go:57-87 | A record yields a frame iff it names an image, and that frame's png path lies under the output directory. |
| FrameDerivation.DeriveSpec | models/RobotJob.go:57-87 | A frame exists iff the record names an image, and it is a top frame iff the top name is set, so top wins. Its fields are: the source path under the manifest directory, the png name with its first ".422" replaced, the png path under the output directory, the 4:2:2 size copied, the width doubled modulo 2^16 with the height kept, and the compression copied. |
| FrameDerivation.Frames | models/RobotJob.go:55-57 | The frame list has one container per record, and container i is derived from record i. |
| FrameDerivation.FramesUnderOutputDir | models/RobotJob.go:69 | Every png path of a frame list lies under the output directory. |
| FrameDerivation.RewriteTopImages | models/RobotJob.go:128-132 | The rewrite keeps the number of records and changes nothing in any record except `topImage`. |
| FrameDerivation.RewriteAfterDerive | models/RobotJob.go:126-132 | After deriving the frames, the rewrite gives each record with a top image its png name. Bottom-only records are left unchanged. |
| FrameDerivation.RewriteIdempotent | models/RobotJob.go:128-132 | Rewriting twice with the same frames equals rewriting once. |
| FrameDerivation.ApplyRewrite | logic/jobHandler.go:85-89 | The loop over the frames sets each top frame's record `topImage` to its png name, and the result is RewriteTopImages. |
| FrameDerivation.ReceiveReplies | models/RobotJob.go:114-122 | The reply loop takes exactly one reply per frame, in arrival order and whatever their success. It deadlocks when fewer replies arrive. |
| Discovery.SessionDirs | models/CollectionJob.go:28-30 | The session entries of a listing are at most as many as its entries. |
| Discovery.SessionDirsStep | models/CollectionJob.go:28-38 | Each listing entry adds itself to the job list exactly when it is a directory named "10.1.24.*". |
| Discovery.SessionDirsMembership | models/CollectionJob.go:30 | An entry gets a job iff it is in the listing, is a directory, and its name starts with "10.1.24.". |
| Discovery.SessionDirsAppend | models/CollectionJob.go:28-39 | Filtering distributes over concatenation, so jobs come out in listing order. |
| Discovery.SessionDirsCount | models/CollectionJob.go:28-30 | Every job's entry is a session directory, and every entry gets a job iff all entries are session directories. |
| RobotJobs.EncoderList | models/RobotJob.go:93-96 | There are exactly NJobs encoders, each at the job's compression level. |
| RobotJobs.RobotJob.constructor | models/RobotJob.go:17-30 | `var rjc RobotJob` gives the zero value with empty frames and no encoders. |
| RobotJobs.RobotJob.PrePrepare | models/RobotJob.go:33-46 | The manifest directory is Dir(path) and the robot name is Dir(Dir(path)). OutputDir, NJobs, the compression level (unchecked) and ModifyOriginal are copied. The manifest and the frames are unchanged. A failed mkdir is fatal with a message naming the output directory. |
| RobotJobs.RobotJob.Prepare | models/RobotJob.go:49-88 | A load error is fatal with the file-naming message. Otherwise the manifest is the loaded one. Prepare succeeds iff every record names an image, and then frames == Frames(records, ReplayJsonDir, OutputDir, level). On the first unnamed record it stops fatally, with the frames before it derived. The configuration is unchanged. |
| RobotJobs.RobotJob.Run | models/RobotJob.go:91-140 | Run builds NJobs encoders (a negative NJobs panics in make). It succeeds iff one reply per frame arrives, and then it received exactly len(frames) replies. On success the manifest is rewritten with RewriteTopImages iff ModifyOriginal holds; otherwise it is unchanged. |
| CollectionJobs.RunJob | models/CollectionJob.go:50-53 | Prepare, then Run, ends exactly as JobOutcome says: a load failure is fatal with the message naming the job's manifest, then an unnamed record, a negative NJobs (make panics) and too few replies are fatal. Success means the job finished on the loaded manifest. The job's whole configuration is unchanged. |
| CollectionJobs.JobOutcome | models/CollectionJob.go:50-53 | A job finishes iff its manifest loads, every record names an image, NJobs is not negative, and at least one reply per frame arrives. |
| CollectionJobs.BuildJob | models/CollectionJob.go:32-37 | A zero RobotJob is configured for the entry. Its output path is Join(outputDir, name, replaySubDir), and it is appended to the queue as a fresh, distinct job. A failed mkdir is fatal. |
| CollectionJobs.BuildQueue | models/CollectionJob.go:28-39 | The queue holds one distinct job per session directory, in listing order, each configured for its entry with the shared settings. Otherwise the mkdir of some session failed, fatally with that session's output path, after the mkdir of every earlier session succeeded. |
| CollectionJobs.BuildStep | models/CollectionJob.go:28-38 | One loop pass over entry i adds a job exactly for a session entry and keeps the built queue and the earlier mkdirs. Otherwise that entry's mkdir failed, fatally. |
| CollectionJobs.CollectionJob.constructor | models/CollectionJob.go:14-17 | `var job CollectionJob` has a nil queue and an empty RootDir. |
| CollectionJobs.CollectionJob.PrePrepare | models/CollectionJob.go:21-42 | A listing error is fatal, naming the RootDir field, and leaves the queue alone. Otherwise the queue is the built job list, with capacity equal to the listing length, and it is closed. A failed mkdir is fatal with the path of the first session whose mkdir failed. |
| CollectionJobs.CollectionJob.Prepare | models/CollectionJob.go:45-46 | It changes nothing. |
| CollectionJobs.CollectionJob.RunNext | models/CollectionJob.go:50-53 | One loop pass takes job i off the queue and prepares and runs it. The job keeps its configuration, and the status is its JobOutcome. Jobs already drained stay completed, and later jobs stay ready. |
| CollectionJobs.CollectionJob.Run | models/CollectionJob.go:49-54 | The jobs are drained in queue order, each prepared and then run, and every job keeps the configuration it was given. Every job before the stopping point finished. The drain stops with JobOutcome of the first job that does not finish, leaving the jobs after it in the queue. Success means the queue was closed and fully drained. An unclosed queue deadlocks once it is empty. |
| Util.FirstMatch | util/util.go:65-70 | The first match, when there is one, is an index into the listing whose entry's name matches the pattern. |
| Util.FirstMatchSpec | util/util.go:65-70 | FirstMatch is the index of the first entry whose name matches, or None when no entry matches. |
| Util.FirstMatchIs | util/util.go:65-68 | A matching entry with no match before it is the first match. |
| Util.MatchPatternInPath | util/util.go:60-71 | A listing error is fatal. Otherwise the result is the first matching entry, or none. |
| Util.ExpandHome | util/util.go:73-82 | Only a path that starts with '~' is changed. |
| Util.ExpandHomeCases | util/util.go:73-82 | "~" becomes home, and "~/rest" becomes Join(home, rest), stripping exactly two characters. Every other path, "~user/x" and "/a/~" among them, is returned unchanged. |
| Util.ExpandHomeIdempotent | util/util.go:73-82 | With a set home directory that does not start with '~', expanding twice equals expanding once. |
| Util.GetReplayJsonFromDir | util/util.go:47-58 | ReplayDirAbs = Abs(Clean(dir)) and ReplayJsonPath = Join(ReplayDirAbs, "replay.json"). The manifest is loaded, and a load error is fatal. The other fields are unchanged. |
| Util.FindReplayJson | util/util.go:34-44 | With a "replay_*" entry, the first one is the replay directory and is loaded, with no error returned. A load failure is fatal with the loader's message. Without a "replay_*" entry, the container is unchanged and the error is "No replay.json could be found in " + RobotPath. A listing error is fatal. |
| Util.ReplayJsonLocation | util/util.go:50-53 | For an absolute robot directory, the found manifest lies in the replay directory, and the manifest's grandparent is the robot directory. |
| JobHandler.BuildFrame | logic/jobHandler.go:28-54 | One loop pass builds the derived container of the record, or nothing when the record names no image. |
| JobHandler.PopulateFrames | logic/jobHandler.go:25-55 | It succeeds iff every record names an image, and then the frames are Frames(records, ReplayDirAbs, OutputDir, level). Otherwise it ends with the unnamed-frame message. |
| JobHandler.HandleReplayJSON | logic/jobHandler.go:15-97 | A failed mkdir of Abs(OutputDir) is fatal, and so is an unnamed record; then nothing is sent. Otherwise the frames sent to the workers are Frames of the records, with sources under ReplayDirAbs and pngs under the raw OutputDir. It succeeds iff one reply per frame arrives, receiving exactly that many. The manifest is rewritten iff ModifyOriginal holds, and no other field changes. |
| MainProgram.StoreGroup | main.go:71-79 | The eight unrolled writes put the group's expansion at pix[i2..i2+8] and change nothing else. |
| MainProgram.FillPixDirect | main.go:66-80 | The unrolled remap leaves pix equal to Expand(bytes) followed by the untouched tail, the same as the current remap. |
| MainProgram.ConvertToPng | main.go:52-85 | It gives the same outcome as ConvertFrameToPng for every input. |
| MainProgram.MainDerive | main.go:154-173 | main builds a frame iff the record names an image. It is a top frame iff the top name is set, and its compression is the zero value. |
| MainProgram.MainFrames | main.go:149-177 | main's frame list has one container per record, and container i is derived from record i by main's rules. |
| MainProgram.MainBuildFrame | main.go:151-176 | One loop pass builds main's container of the record, or nothing when the record names no image. |
| MainProgram.PopulateFrames | main.go:149-177 | It succeeds iff every record names an image, and then the frames are MainFrames. Otherwise it ends with the unnamed-frame message. |
| MainProgram.MainDeriveBesideSource | main.go:155-160 | When the replay directory has no ".422" in it, main's frame is the shared derivation with the replay directory as output directory. |
| MainProgram.MainRewriteAgrees | main.go:203-207 | main's unconditional rewrite produces the same records as the shared rewrite, wherever the pngs go. |
| MainProgram.MainIgnoresOutputDir | main.go:143-160 | For a named record and a replay directory with no ".422" that is at least as long as the output directory but not under it, the png path is not under the output directory. |
| MainProgram.MainReplacesInDirectory | main.go:160 | A ".422" in the replay directory's path is the one replaced, and the file name keeps its ".422". |
| MainProgram.PngNameInDir | main.go:160 | The first ".422" of a joined path is the directory's, when the directory has one. |
| MainProgram.RunMain | main.go:118-217 | A load failure is fatal, and so are a failed mkdir of Abs(outputDir) and an unnamed record; then nothing is sent. Otherwise the frames sent to the workers are MainFrames of the records under Abs(replayDir). It succeeds iff one reply per frame arrives, receiving exactly that many. Then replay.json under Abs(replayDir) is written with every top frame's image renamed, unconditionally. |
| Containers.ReplayJsonContainer.FromState | logic/superJobHandling.go:16 | Receiving from the channel gives a container holding a copy of the queued value. |
| SuperJobs.SessionContainer | logic/superJobHandling.go:32-38 | A session's container is named after its entry and its robot path lies under Dir. Its OutputDir and ReplayDirAbs are empty and its manifest is the zero value. |
| SuperJobs.BuildContainer | logic/superJobHandling.go:32-38 | The container has RobotName = name, RobotPath = Join(Dir, name), an empty OutputDir, and the settings copied. Everything else is zero. |
| SuperJobs.BuildQueue | logic/superJobHandling.go:29-42 | The queue holds one such container per session directory, in listing order. |
| SuperJobs.BuildSuperJob | logic/superJobHandling.go:24-44 | A listing error is fatal and names Dir. Otherwise the queue is the built list, with capacity equal to the listing length, and it is closed. |
| SuperJobs.EmptyOutputDir | logic/superJobHandling.go:32-35 | With the empty OutputDir the created directory is the working directory, and every png path is the bare png name. |
| SuperJobs.HandledFrames | logic/jobHandler.go:25-63 | A container whose manifest loaded with every record named sends one frame per record. Otherwise it sends nothing. |
| SuperJobs.SentByExtend | logic/superJobHandling.go:16-20 | The frames of one more handled container extend the frames sent by those before it. |
| SuperJobs.SuperJobPngsBare | logic/superJobHandling.go:32-35 | For every container of a built queue that HandleSuperJob handled, the created output directory is the working directory, and every png path it sent is the bare png name. |
| SuperJobs.SuperOutcome | logic/superJobHandling.go:16-20 | A container is handled without ending the process iff its robot directory lists, has a "replay_*" entry and a manifest that loads, the mkdir succeeds, every record names an image, and a reply arrives per frame. |
| SuperJobs.HandledOutcome | logic/superJobHandling.go:16-20 | Every container the drain got past had outcome Ok. |
| SuperJobs.HandleOne | logic/superJobHandling.go:17-20 | It ends exactly as SuperOutcome says: a listing error, a missing replay directory (with the ReplayDirAbs message), a load error, a failed mkdir, an unnamed record and too few replies are each fatal. On success the replay directory was the first "replay_*" entry, the frames sent are HandledFrames of the container, every frame got a reply, the rewrite follows ModifyOriginal, and the robot and settings are unchanged. |
| SuperJobs.HandleCopy | logic/superJobHandling.go:16-20 | One loop pass handles a copy of the popped value. It ends as SuperOutcome says. On success the copy is handled as in HandleOne, and the frames sent are its HandledFrames. |
| SuperJobs.HandleNext | logic/superJobHandling.go:16-20 | One loop pass takes container i off the queue and handles its copy, ending as SuperOutcome says. On success the handled containers and the frames they sent grow by this one. |
| SuperJobs.HandleSuperJob | logic/superJobHandling.go:15-22 | The queue is drained in order. Every container before the stopping point was handled, and the frames it sent are its HandledFrames. The drain stops with SuperOutcome of the first container that fails, leaving the containers after it in the queue. Success means the queue was closed and fully drained, and an unclosed queue deadlocks. |

## Left out

- **The worker pool, goroutines and channels of frames and replies are left out**
  (`converter/FrameWorker.go`, `logic/frameWorker.go`, `logic/util.go`, and the
  workers of `main.go`). Each driver takes the replies the pool delivers as a
  sequence. The older drivers return the frames they put on the jobs channel as `sent`. With no worker started, none arrive. The early return of a worker after a
  failure only changes which replies arrive.
- A frame whose remap indexes out of range panics inside a worker goroutine
  (converter/converter.go:40-50, called from converter/FrameWorker.go:25). Nothing
  recovers it, so the whole process ends. The drivers' `replies` parameter cannot
  express that outcome. A driver in the model only deadlocks or finishes, and
  `ConvertFrameToPng` returns `IndexOutOfRange` on its own.
- PNG encoding and `png.Encoder` are not modelled. The encoder list is modelled by its
  compression level only, and `image.NewRGBA` is modelled as a zero buffer of 4*W*H bytes.
- JSON parsing and serialisation and all file reads and writes are replaced by
  parameters. The manifest arrives already parsed, or as a read or parse error. Writing
  it back is modelled as the new manifest value. Marshal and write errors are not
  modelled.
- `ioutil.ReadDir`, `os.MkdirAll`, `os.UserHomeDir` and `filepath.Abs` depend on the
  file system. They are replaced by parameters: listings, `mkdirFailed`, `home` and `cwd`.
- `filepath.Abs` fails when the working directory cannot be determined. The source
  then ends the process through `errors.Check`, at util/util.go:50-51,
  logic/jobHandler.go:17-18, main.go:134-135 and main.go:143-144. In the model,
  `Abs(cwd, p)` cannot fail, so that fatal path is not modelled.
- The `filepath` semantics are simplified:
  - `Join` joins with one '/' and does not clean;
  - `Clean` is the identity;
  - `Abs` prefixes the working directory to a relative path;
  - `Match` is a prefix test for patterns ending in '*'.
- `Fatal(msg)` carries the message text the source passes to `errors.Check` or
  `log.Fatalln`, and not the whole printed line. `errors.Check` prints "[ERROR] "
  before it and the wrapped error after a newline. For an unnamed record, `log.Fatalln`
  prints the record itself after `UnnamedFrameMsg`. Those parts are not modelled,
  because errors and records have no text form in this model.
- Flags, timing, logging and the help text of `main.go` are not modelled.
- The telemetry fields of a frame record are an opaque payload that is carried along.
- The declarations of `ReplayJsonContainer` and `SuperJob` are not part of this model.
  Their fields are the ones the code reads and assigns.
- SuperJobs.SuperJob.constructor: no file of this model creates a super job. The
  constructor gives the value BuildSuperJob starts from: Dir set, a nil queue and the
  closed flag unset.
- `models/CollectionJob.go:33` calls `util.FindReplayJson` with a signature that
  `util/util.go:34` does not have. The model makes the (manifest path, sub-directory)
  pair it expects a parameter, `locate`.
- `util.LoadJSON`, which `main.go` calls, is not part of this model.
- Converter.ConvertFrameToPng: the writes made before an index-out-of-range panic are
  not modelled, because the process ends there.
- MainProgram.RunMain: a load failure only promises some fatal status, because the
  loader's messages are not part of this model.
- RobotJobs.RobotJob.PrePrepare: the robot name is modelled as Dir(Dir(path)), not
  filepath.Clean(filepath.Join(path, "..", "..")), because Clean is not modelled. The two
  agree when the path has a directory part, as in "/r/replay_1/replay.json" or
  "a/replay.json". They differ for a bare "replay.json", where Go gives ".." and the model
  gives ".". They also differ for paths with "." or ".." elements, which Clean would
  resolve. Nothing else in the model reads the robot name.

## Findings

| source | as written | input that shows it | evidently intended | confidence | as-written member | corrected member |
|---|---|---|---|---|---|---|
| main.go:143-160 | The output directory is made absolute and created, but each png path is derived from the source path in the replay directory. | replayDir "/data/s", outputDir "/out", a record with topImage "a.422": the png goes to "/data/s/a.png" and "/out" stays empty | Each png is written under the output directory, as later versions do with Join(outputDir, pngName). | high, not executed | MainProgram.MainIgnoresOutputDir | FrameDerivation.DeriveSpec |
| main.go:160 | The first ".422" of the whole absolute source path is replaced, not the one in the file name. | replayDir "/d.422", topImage "a.422": the png path is "/d.png/a.422", in a directory that does not exist | Only the file name's ".422" is replaced. | high, not executed | MainProgram.MainReplacesInDirectory | FrameDerivation.DeriveSpec |
