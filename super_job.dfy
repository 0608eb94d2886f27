/** logic/superJobHandling.go: the older collection driver. BuildSuperJob
    queues one ReplayJsonContainer value per robot session directory under
    the job's directory; HandleSuperJob drains the queue, locating each
    robot's manifest and handing it to HandleReplayJSON. The queue is a
    channel of struct values, so every container is copied in and out of it;
    the SuperJob type's declaration is not part of this model, its fields are
    the ones the file reads and assigns. */
module SuperJobs {
  import opened Wrappers
  import opened Types
  import opened Strings
  import opened Paths
  import opened FrameDerivation
  import opened Discovery
  import opened Containers
  import opened Util
  import opened JobHandler

  /** The container BuildSuperJob builds for session entry `e` of directory
      `dir`: named after the entry, with the session directory as robot path,
      the settings copied in and everything else zero. OutputDir is copied
      from ReplayDirAbs, which is still empty at that point. */
  function SessionContainer(e: DirEntry, dir: string, nJobs: int, pngCompression: int, modifyOriginal: bool): (r: ContainerState)
    ensures r.robotName == e.name && HasPrefix(r.robotPath, dir) && r.outputDir == ""
    ensures r.replayDirAbs == "" && r.replayJson == Info([], [])
  {
    ContainerState(e.name, Join(dir, e.name), "", "", "", Info([], []), nJobs, pngCompression, modifyOriginal)
  }

  /** The body of BuildSuperJob's loop for one session entry: the fields of a
      zero container assigned one by one */
  method BuildContainer(e: DirEntry, dir: string, nJobs: int, pngCompression: int, modifyOriginal: bool)
    returns (rjc: ContainerState)
    ensures rjc == SessionContainer(e, dir, nJobs, pngCompression, modifyOriginal)
    ensures rjc.outputDir == "" && rjc.robotPath == Join(dir, e.name)
  {
    rjc := ZeroContainer;
    rjc := rjc.(robotName := e.name);
    rjc := rjc.(robotPath := Join(dir, e.name));
    rjc := rjc.(outputDir := rjc.replayDirAbs);
    rjc := rjc.(nJobs := nJobs);
    rjc := rjc.(compressionLevel := pngCompression);
    rjc := rjc.(modifyOriginal := modifyOriginal);
  }

  /** The queue BuildSuperJob fills: one container per session entry, in
      listing order */
  predicate Built(q: seq<ContainerState>, sessions: seq<DirEntry>, dir: string, nJobs: int,
                  pngCompression: int, modifyOriginal: bool)
  {
    && |q| == |sessions|
    && forall k :: 0 <= k < |q| ==> q[k] == SessionContainer(sessions[k], dir, nJobs, pngCompression, modifyOriginal)
  }

  /** BuildSuperJob's loop over the listing entries */
  method BuildQueue(info: seq<DirEntry>, dir: string, nJobs: int, pngCompression: int, modifyOriginal: bool)
    returns (q: seq<ContainerState>)
    ensures Built(q, SessionDirs(info), dir, nJobs, pngCompression, modifyOriginal)
  {
    q := [];
    ghost var sessions := [];
    var i := 0;
    while i < |info|
      invariant 0 <= i <= |info|
      invariant sessions == SessionDirs(info[..i])
      invariant Built(q, sessions, dir, nJobs, pngCompression, modifyOriginal)
    {
      var fileInfo := info[i];
      SessionDirsStep(info, i);
      if IsSessionDir(fileInfo) {
        var rjc := BuildContainer(fileInfo, dir, nJobs, pngCompression, modifyOriginal);
        q := q + [rjc];
        sessions := sessions + [fileInfo];
      }
      i := i + 1;
    }
    assert info[..i] == info;
  }

  class SuperJob {
    var dir: string
    var queue: seq<ContainerState>   // the containers in the Queue channel, in send order
    var queueCap: int                // cap(Queue)
    var closed: bool                 // close(Queue) has been called

    /** A super job over directory `dir` with a nil queue */
    constructor (dir: string)
      ensures this.dir == dir && queue == [] && queueCap == 0 && !closed
    {
      this.dir, queue, queueCap, closed := dir, [], 0, false;
    }
  }

  /** BuildSuperJob: lists job.Dir (`listing` is what ioutil.ReadDir
      returned), queues one container per session directory in listing
      order into a queue whose capacity is the listing length, and closes the
      queue. A listing error ends the process. */
  method BuildSuperJob(job: SuperJob, nJobs: int, pngCompression: int, modifyOriginal: bool, listing: Listing)
    returns (status: Status)
    modifies job
    ensures job.dir == old(job.dir)
    ensures listing.Failure? ==>
      status == Fatal(ListErrorMsg(job.dir))
      && job.queue == old(job.queue) && job.queueCap == old(job.queueCap) && job.closed == old(job.closed)
    ensures listing.Success? ==>
      && status == Ok && job.queueCap == |listing.value| && job.closed
      && Built(job.queue, SessionDirs(listing.value), job.dir, nJobs, pngCompression, modifyOriginal)
  {
    if listing.Failure? {
      return Fatal(ListErrorMsg(job.dir));
    }
    var q := BuildQueue(listing.value, job.dir, nJobs, pngCompression, modifyOriginal);
    job.queue, job.queueCap, job.closed := q, |listing.value|, true;
    status := Ok;
  }

  /** A container built by BuildSuperJob has an empty OutputDir, so
      HandleReplayJSON creates the working directory as its output directory
      and every png path it hands the workers is the bare png name, relative
      to the working directory rather than to any output root */
  lemma EmptyOutputDir(records: seq<FrameRecord>, srcDir: string, compression: int, cwd: string)
    requires AllNamed(records)
    ensures Abs(cwd, Clean("")) == cwd
    ensures forall i :: 0 <= i < |records| ==>
      Frames(records, srcDir, "", compression)[i].pathPngAbs == Frames(records, srcDir, "", compression)[i].pngFileName
  {
  }

  /** The message HandleSuperJob ends the process with when no replay
      directory is found; it names the container's ReplayDirAbs, which is
      still empty then */
  function SuperNotFoundMsg(replayDirAbs: string): string
  {
    "No replay.json could be found in dir " + replayDirAbs + ". Are your files intact?"
  }

  /** What the environment supplies for one robot when its container is
      handled: the robot directory's listing, the manifest as read and parsed,
      whether creating the output directory fails, and the workers' replies */
  datatype RobotInput = RobotInput(listing: Listing, loaded: Result<Info, LoadError>, mkdirFailed: bool,
                                   replies: seq<WorkerReply>)

  /** How HandleSuperJob's loop body ends for the container `s`: a listing
      error, a robot directory without a "replay_*" entry, a load error, a
      failed mkdir, a record that names no image and fewer replies than
      frames each end the process; anything else is handled */
  function SuperOutcome(s: ContainerState, input: RobotInput, cwd: string): (r: Status)
    ensures r == Ok <==>
      && input.listing.Success? && FirstMatch(input.listing.value, ReplayDirPattern).Some?
      && input.loaded.Success? && !input.mkdirFailed && AllNamed(input.loaded.value.frames)
      && |input.loaded.value.frames| <= |PoolReplies(s.nJobs, input.replies)|
  {
    if input.listing.Failure? then Fatal(ReadDirMsg(s.robotPath))
    else if FirstMatch(input.listing.value, ReplayDirPattern).None? then Fatal(SuperNotFoundMsg(s.replayDirAbs))
    else if input.loaded.Failure? then Fatal(LoadMsg(input.loaded.error))
    else if input.mkdirFailed then Fatal(MkdirMsg(Abs(cwd, Clean(s.outputDir))))
    else if !AllNamed(input.loaded.value.frames) then Fatal(UnnamedFrameMsg)
    else if |input.loaded.value.frames| <= |PoolReplies(s.nJobs, input.replies)| then Ok
    else Fatal(DeadlockMsg)
  }

  /** The frames a container left as `after` handed to the workers: its
      manifest's records derived under its replay and output directories;
      nothing when the manifest did not load or a record names no image */
  function HandledFrames(after: ContainerState, input: RobotInput): (r: seq<FrameContainer>)
    ensures input.loaded.Success? && AllNamed(input.loaded.value.frames) ==> |r| == |input.loaded.value.frames|
    ensures input.loaded.Failure? || !AllNamed(input.loaded.value.frames) ==> r == []
  {
    if input.loaded.Failure? || !AllNamed(input.loaded.value.frames) then []
    else Frames(input.loaded.value.frames, after.replayDirAbs, after.outputDir, after.compressionLevel)
  }

  /** sent[k] are the frames the container left as handled[k] handed to the
      workers, for every handled container */
  ghost predicate SentBy(sent: seq<seq<FrameContainer>>, handled: seq<ContainerState>, inputs: seq<RobotInput>)
  {
    && |sent| == |handled| <= |inputs|
    && forall k :: 0 <= k < |sent| ==> sent[k] == HandledFrames(handled[k], inputs[k])
  }

  /** One more handled container extends the sent frames */
  lemma SentByExtend(sent: seq<seq<FrameContainer>>, handled: seq<ContainerState>, inputs: seq<RobotInput>,
                     after: ContainerState, frames: seq<FrameContainer>)
    requires SentBy(sent, handled, inputs) && |handled| < |inputs|
    requires frames == HandledFrames(after, inputs[|handled|])
    ensures SentBy(sent + [frames], handled + [after], inputs)
  {
    var s', h' := sent + [frames], handled + [after];
    forall k | 0 <= k < |s'|
      ensures s'[k] == HandledFrames(h'[k], inputs[k])
    {
      if k < |sent| {
        assert s'[k] == sent[k] && h'[k] == handled[k];
      }
    }
  }

  /** A container copied from `before` went through HandleSuperJob's loop
      body without ending the process and was left as `after`: its replay
      directory was the first "replay_*" entry, its manifest loaded and named
      an image in every record, its output directory was created, every frame
      got a reply, and the manifest was rewritten when ModifyOriginal is set;
      the robot and the settings are unchanged */
  ghost predicate Handled(before: ContainerState, after: ContainerState, input: RobotInput, cwd: string)
  {
    && input.listing.Success? && FirstMatch(input.listing.value, ReplayDirPattern).Some?
    && input.loaded.Success? && AllNamed(input.loaded.value.frames) && !input.mkdirFailed
    && after.robotName == before.robotName && after.robotPath == before.robotPath
    && after.outputDir == before.outputDir && after.nJobs == before.nJobs
    && after.compressionLevel == before.compressionLevel && after.modifyOriginal == before.modifyOriginal
    && var m := FirstMatch(input.listing.value, ReplayDirPattern).value;
       var replayDir := Join(before.robotPath, input.listing.value[m].name);
       var records := input.loaded.value.frames;
       var frames := HandledFrames(after, input);
       && after.replayDirAbs == Abs(cwd, Clean(replayDir))
       && after.replayJsonPath == ReplayJsonPathFor(cwd, replayDir)
       && |frames| <= |PoolReplies(after.nJobs, input.replies)|
       && after.replayJson.config == input.loaded.value.config
       && after.replayJson.frames == if after.modifyOriginal then RewriteTopImages(records, frames) else records
  }

  /** A handled container had outcome Ok: every container HandleSuperJob got
      past had a replay directory, a loadable manifest naming an image in every
      record, an output directory and its replies */
  lemma HandledOutcome(before: ContainerState, after: ContainerState, input: RobotInput, cwd: string)
    requires Handled(before, after, input, cwd)
    ensures SuperOutcome(before, input, cwd) == Ok
  {
    assert |HandledFrames(after, input)| == |input.loaded.value.frames|;
  }

  /** Every png a super job converts is written relative to the working
      directory: the containers BuildSuperJob queues have an empty OutputDir,
      so for each container HandleSuperJob handled, the output directory
      created is the working directory and every png path of the frames it
      handed to the workers is the bare png name */
  lemma {:induction false} SuperJobPngsBare(queued: seq<ContainerState>, sessions: seq<DirEntry>, dir: string,
                                            nJobs: int, pngCompression: int, modifyOriginal: bool,
                                            handled: seq<ContainerState>, inputs: seq<RobotInput>, cwd: string)
    requires Built(queued, sessions, dir, nJobs, pngCompression, modifyOriginal)
    requires Stepwise((b, a, input) => Handled(b, a, input, cwd), queued, handled, inputs)
    ensures forall k :: 0 <= k < |handled| ==> Abs(cwd, Clean(handled[k].outputDir)) == cwd
    ensures forall k, i :: 0 <= k < |handled| && 0 <= i < |HandledFrames(handled[k], inputs[k])| ==>
      HandledFrames(handled[k], inputs[k])[i].pathPngAbs == HandledFrames(handled[k], inputs[k])[i].pngFileName
  {
    forall k | 0 <= k < |handled|
      ensures Abs(cwd, Clean(handled[k].outputDir)) == cwd
      ensures forall i :: 0 <= i < |HandledFrames(handled[k], inputs[k])| ==>
        HandledFrames(handled[k], inputs[k])[i].pathPngAbs == HandledFrames(handled[k], inputs[k])[i].pngFileName
    {
      assert Handled(queued[k], handled[k], inputs[k], cwd);
      assert handled[k].outputDir == "";
      EmptyOutputDir(inputs[k].loaded.value.frames, handled[k].replayDirAbs, handled[k].compressionLevel, cwd);
    }
  }

  /** `step` relates the front of `queued` to `done` entry by entry, each with
      its own input */
  ghost predicate Stepwise(step: (ContainerState, ContainerState, RobotInput) -> bool,
                           queued: seq<ContainerState>, done: seq<ContainerState>, inputs: seq<RobotInput>)
  {
    && |done| <= |queued| && |done| <= |inputs|
    && forall k :: 0 <= k < |done| ==> step(queued[k], done[k], inputs[k])
  }

  /** One more related entry extends the related prefix */
  lemma StepwiseExtend(step: (ContainerState, ContainerState, RobotInput) -> bool,
                       queued: seq<ContainerState>, done: seq<ContainerState>, inputs: seq<RobotInput>,
                       next: ContainerState)
    requires Stepwise(step, queued, done, inputs)
    requires |done| < |queued| && |done| < |inputs| && step(queued[|done|], next, inputs[|done|])
    ensures Stepwise(step, queued, done + [next], inputs)
  {
    var d := done + [next];
    forall k | 0 <= k < |d|
      ensures step(queued[k], d[k], inputs[k])
    {
      if k < |done| {
        assert d[k] == done[k];
      }
    }
  }

  /** The body of HandleSuperJob's loop for the container `rjc` points to */
  method HandleOne(rjc: ReplayJsonContainer, cwd: string, input: RobotInput)
    returns (status: Status, sent: seq<FrameContainer>)
    modifies rjc
    ensures status == SuperOutcome(old(rjc.State()), input, cwd)
    ensures status == Ok ==> Handled(old(rjc.State()), rjc.State(), input, cwd)
    ensures status == Ok ==> sent == HandledFrames(rjc.State(), input)
  {
    sent := [];
    var st, err := FindReplayJson(rjc, input.listing, cwd, input.loaded);
    if st != Ok {
      return st, sent;
    }
    if err.Some? {
      return Fatal(SuperNotFoundMsg(rjc.replayDirAbs)), sent;
    }
    var received;
    status, sent, received := HandleReplayJSON(rjc, cwd, input.mkdirFailed, input.replies);
  }

  /** One pass of HandleSuperJob's loop body: the popped value copied into a
      container of its own, which is then handled; `after` is the copy's
      state afterwards and `sent` the frames handed to the workers */
  method HandleCopy(s: ContainerState, cwd: string, input: RobotInput)
    returns (status: Status, ghost after: ContainerState, sent: seq<FrameContainer>)
    ensures status == SuperOutcome(s, input, cwd)
    ensures status == Ok ==> Handled(s, after, input, cwd) && sent == HandledFrames(after, input)
  {
    var rjc := new ReplayJsonContainer.FromState(s);
    status, sent := HandleOne(rjc, cwd, input);
    after := rjc.State();
  }

  /** One pass of HandleSuperJob's loop: container `i` of `queued` is taken
      off the queue and its copy handled. When it is handled, its state and
      the frames it handed to the workers extend `handled` and `sent` */
  method HandleNext(job: SuperJob, cwd: string, inputs: seq<RobotInput>, ghost queued: seq<ContainerState>,
                    ghost handled: seq<ContainerState>, ghost sent: seq<seq<FrameContainer>>, i: nat)
    returns (status: Status, ghost handled': seq<ContainerState>, ghost sent': seq<seq<FrameContainer>>)
    requires |inputs| == |queued| && i == |handled| < |queued| && job.queue == queued[i..]
    requires Stepwise((b, a, input) => Handled(b, a, input, cwd), queued, handled, inputs)
    requires SentBy(sent, handled, inputs)
    modifies job
    ensures job.queue == queued[i + 1..] && job.dir == old(job.dir) && job.closed == old(job.closed)
    ensures status == SuperOutcome(queued[i], inputs[i], cwd)
    ensures status != Ok ==> handled' == handled && sent' == sent
    ensures status == Ok ==>
      && |handled'| == i + 1
      && Stepwise((b, a, input) => Handled(b, a, input, cwd), queued, handled', inputs)
      && SentBy(sent', handled', inputs)
  {
    handled', sent' := handled, sent;
    var rjc := job.queue[0];
    job.queue := job.queue[1..];
    assert job.queue == queued[i + 1..];
    ghost var after: ContainerState;
    var frames: seq<FrameContainer>;
    status, after, frames := HandleCopy(rjc, cwd, inputs[i]);
    if status == Ok {
      StepwiseExtend((b, a, input) => Handled(b, a, input, cwd), queued, handled, inputs, after);
      SentByExtend(sent, handled, inputs, after, frames);
      handled', sent' := handled + [after], sent + [frames];
    }
  }

  /** HandleSuperJob: drains the queue in order, copying each container out
      and handling the copy (`inputs[k]` is what container k finds). The
      first container that ends the process stops the drain; a queue that was
      never closed blocks once it is empty. `handled` are the copies'
      states after handling: container k became handled[k] as Handled says,
      for every container before the stop, and sent[k] are the frames it
      handed to the workers. */
  method HandleSuperJob(job: SuperJob, cwd: string, inputs: seq<RobotInput>)
    returns (status: Status, ghost handled: seq<ContainerState>, ghost sent: seq<seq<FrameContainer>>)
    requires |inputs| == |job.queue|
    modifies job
    ensures job.dir == old(job.dir) && job.closed == old(job.closed)
    ensures Stepwise((b, a, input) => Handled(b, a, input, cwd), old(job.queue), handled, inputs)
    ensures SentBy(sent, handled, inputs)
    ensures status == Ok ==> job.closed && job.queue == [] && |handled| == |old(job.queue)|
    ensures status != Ok && |handled| == |old(job.queue)| ==> !job.closed && status == Fatal(DeadlockMsg)
    ensures status != Ok && |handled| < |old(job.queue)| ==>
      && job.queue == old(job.queue)[|handled| + 1..]
      && status == SuperOutcome(old(job.queue)[|handled|], inputs[|handled|], cwd)
  {
    ghost var queued := job.queue;
    handled, sent := [], [];
    var i := 0;
    while job.queue != []
      invariant 0 <= i <= |queued| && job.queue == queued[i..] && |handled| == i
      invariant SentBy(sent, handled, inputs)
      invariant job.dir == old(job.dir) && job.closed == old(job.closed)
      invariant Stepwise((b, a, input) => Handled(b, a, input, cwd), queued, handled, inputs)
      decreases |queued| - i
    {
      var st;
      st, handled, sent := HandleNext(job, cwd, inputs, queued, handled, sent, i);
      if st != Ok {
        status := st;
        return;
      }
      i := i + 1;
    }
    assert |queued[i..]| == 0;
    if !job.closed {
      return Fatal(DeadlockMsg), handled, sent;
    }
    status := Ok;
  }
}
