/** models/CollectionJob.go: the job that finds every robot's session
    directory under a root directory, builds one RobotJob per session in
    PrePrepare and runs them one after the other in Run. */
module CollectionJobs {
  import opened Wrappers
  import opened Types
  import opened Strings
  import opened Paths
  import opened FrameDerivation
  import opened Discovery
  import opened RobotJobs

  /** What the environment supplies for one queued job when it runs: the
      manifest as read and parsed, and the replies its workers deliver */
  datatype JobInput = JobInput(loaded: Result<Info, LoadError>, replies: seq<WorkerReply>)

  /** The output directory of the job for session entry `e`: the session's
      name and the manifest's sub-directory under the output root. `locate`
      is the (manifest path, sub-directory) the replay.json search returns for
      a session directory. */
  function OutputPath(outputDir: string, e: DirEntry, replaySubDir: string): string
  {
    Join3(outputDir, e.name, replaySubDir)
  }

  /** `job` is the RobotJob PrePrepare builds for session entry `e` */
  ghost predicate JobFor(job: RobotJob, e: DirEntry, rootDir: string, outputDir: string, nJobs: int,
                         pngCompression: int, modifyOriginal: bool, locate: string -> (string, string))
    reads job
  {
    var located := locate(Join(rootDir, e.name));
    job.Configured(located.0, OutputPath(outputDir, e, located.1), nJobs, pngCompression, modifyOriginal)
  }

  /** How Prepare followed by Run ends for a job with `nJobs` workers and
      manifest path `replayJsonPath`: a load error, a record that names no
      image, a negative worker count (make panics) and fewer replies than
      frames each end the process; anything else finishes */
  function JobOutcome(nJobs: int, replayJsonPath: string, input: JobInput): (r: Status)
    ensures r == Ok <==>
      && input.loaded.Success? && AllNamed(input.loaded.value.frames) && nJobs >= 0
      && |input.loaded.value.frames| <= |PoolReplies(nJobs, input.replies)|
  {
    match input.loaded
    case Failure(e) => Fatal(LoadErrorMsg(e, replayJsonPath))
    case Success(info) =>
      if !AllNamed(info.frames) then Fatal(UnnamedFrameMsg)
      else if nJobs < 0 then Fatal(MakeSliceMsg)
      else if |info.frames| <= |PoolReplies(nJobs, input.replies)| then Ok
      else Fatal(DeadlockMsg)
  }

  /** `job` went through Prepare and Run without ending the process */
  ghost predicate Completed(job: RobotJob, input: JobInput)
    reads job
  {
    && input.loaded.Success? && job.Finished(input.loaded.value)
    && JobOutcome(job.nJobs, job.replayJsonPath, input) == Ok
  }

  /** The body of Run's loop for one job: Prepare, then Run unless Prepare
      ended the process */
  method RunJob(rjc: RobotJob, input: JobInput) returns (status: Status)
    requires rjc.Valid()
    modifies rjc
    ensures status == JobOutcome(old(rjc.nJobs), old(rjc.replayJsonPath), input)
    ensures rjc.ConfigUnchanged()
    ensures status == Ok ==> input.loaded.Success? && rjc.Finished(input.loaded.value)
  {
    status := rjc.Prepare(input.loaded);
    if status != Ok {
      return;
    }
    var received;
    status, received := rjc.Run(input.replies);
  }

  /** `q` holds one distinct job per session entry, each configured for it */
  ghost predicate Built(q: seq<RobotJob>, sessions: seq<DirEntry>, rootDir: string, outputDir: string, nJobs: int,
                        pngCompression: int, modifyOriginal: bool, locate: string -> (string, string))
    reads q
  {
    && |q| == |sessions|
    && (forall k, l :: 0 <= k < l < |q| ==> q[k] != q[l])
    && forall k :: 0 <= k < |q| ==>
         JobFor(q[k], sessions[k], rootDir, outputDir, nJobs, pngCompression, modifyOriginal, locate)
  }

  /** A job configured for one more session, distinct from the built ones,
      extends the queue */
  lemma BuiltAppend(q: seq<RobotJob>, sessions: seq<DirEntry>, rootDir: string, outputDir: string, nJobs: int,
                    pngCompression: int, modifyOriginal: bool, locate: string -> (string, string),
                    rjc: RobotJob, e: DirEntry)
    requires Built(q, sessions, rootDir, outputDir, nJobs, pngCompression, modifyOriginal, locate)
    requires rjc !in q && JobFor(rjc, e, rootDir, outputDir, nJobs, pngCompression, modifyOriginal, locate)
    ensures Built(q + [rjc], sessions + [e], rootDir, outputDir, nJobs, pngCompression, modifyOriginal, locate)
  {
    var q', s' := q + [rjc], sessions + [e];
    forall k | 0 <= k < |q'|
      ensures JobFor(q'[k], s'[k], rootDir, outputDir, nJobs, pngCompression, modifyOriginal, locate)
    {
      if k < |q| {
        assert q'[k] == q[k] && s'[k] == sessions[k];
      }
    }
  }

  /** The body of PrePrepare's loop for one session entry `e`: a zero
      RobotJob, the manifest located under the session directory, PrePrepare
      with the output path of the session, and the send into the queue `q` */
  method BuildJob(e: DirEntry, rootDir: string, outputDir: string, nJobs: int, pngCompression: int,
                  modifyOriginal: bool, locate: string -> (string, string), mkdirFailed: string -> bool,
                  q: seq<RobotJob>, ghost sessions: seq<DirEntry>)
    returns (status: Status, q': seq<RobotJob>, rjc: RobotJob)
    requires Built(q, sessions, rootDir, outputDir, nJobs, pngCompression, modifyOriginal, locate)
    ensures var path := OutputPath(outputDir, e, locate(Join(rootDir, e.name)).1);
      status == if mkdirFailed(path) then Fatal(MkdirMsg(path)) else Ok
    ensures status == Ok ==>
      && q' == q + [rjc] && fresh(rjc)
      && Built(q', sessions + [e], rootDir, outputDir, nJobs, pngCompression, modifyOriginal, locate)
  {
    rjc := new RobotJob();
    var located := locate(Join(rootDir, e.name));
    var replayJsonPath, replaySubDir := located.0, located.1;
    var outputPath := OutputPath(outputDir, e, replaySubDir);
    status := rjc.PrePrepare(replayJsonPath, outputPath, nJobs, pngCompression, modifyOriginal, mkdirFailed(outputPath));
    q' := q;
    if status == Ok {
      BuiltAppend(q, sessions, rootDir, outputDir, nJobs, pngCompression, modifyOriginal, locate, rjc, e);
      q' := q + [rjc];
    }
  }

  /** The output directory of every session entry of `entries` was created */
  ghost predicate MkdirsSucceeded(entries: seq<DirEntry>, rootDir: string, outputDir: string,
                                  locate: string -> (string, string), mkdirFailed: string -> bool)
  {
    forall j :: 0 <= j < |entries| && IsSessionDir(entries[j]) ==>
      !mkdirFailed(OutputPath(outputDir, entries[j], locate(Join(rootDir, entries[j].name)).1))
  }

  /** One more entry whose output directory, if it is a session, was created */
  lemma MkdirsSucceededStep(info: seq<DirEntry>, i: nat, rootDir: string, outputDir: string,
                            locate: string -> (string, string), mkdirFailed: string -> bool)
    requires i < |info| && MkdirsSucceeded(info[..i], rootDir, outputDir, locate, mkdirFailed)
    requires IsSessionDir(info[i]) ==>
      !mkdirFailed(OutputPath(outputDir, info[i], locate(Join(rootDir, info[i].name)).1))
    ensures MkdirsSucceeded(info[..i + 1], rootDir, outputDir, locate, mkdirFailed)
  {
    var pre := info[..i + 1];
    forall j | 0 <= j < |pre| && IsSessionDir(pre[j])
      ensures !mkdirFailed(OutputPath(outputDir, pre[j], locate(Join(rootDir, pre[j].name)).1))
    {
      if j < i {
        assert pre[j] == info[..i][j];
      }
    }
  }

  /** One pass of PrePrepare's loop, over entry `i`: a session entry gets its
      job, any other entry is skipped */
  method BuildStep(info: seq<DirEntry>, i: nat, rootDir: string, outputDir: string, nJobs: int, pngCompression: int,
                   modifyOriginal: bool, locate: string -> (string, string), mkdirFailed: string -> bool,
                   q: seq<RobotJob>, ghost sessions: seq<DirEntry>)
    returns (status: Status, q': seq<RobotJob>, ghost sessions': seq<DirEntry>)
    requires i < |info| && sessions == SessionDirs(info[..i])
    requires Built(q, sessions, rootDir, outputDir, nJobs, pngCompression, modifyOriginal, locate)
    requires MkdirsSucceeded(info[..i], rootDir, outputDir, locate, mkdirFailed)
    ensures status == Ok ==>
      && sessions' == SessionDirs(info[..i + 1])
      && Built(q', sessions', rootDir, outputDir, nJobs, pngCompression, modifyOriginal, locate)
      && MkdirsSucceeded(info[..i + 1], rootDir, outputDir, locate, mkdirFailed)
    ensures status != Ok ==>
      IsSessionDir(info[i]) &&
      var path := OutputPath(outputDir, info[i], locate(Join(rootDir, info[i].name)).1);
      mkdirFailed(path) && status == Fatal(MkdirMsg(path))
  {
    var fileInfo := info[i];
    SessionDirsStep(info, i);
    q', sessions' := q, sessions;
    status := Ok;
    if IsSessionDir(fileInfo) {
      var rjc;
      status, q', rjc := BuildJob(fileInfo, rootDir, outputDir, nJobs, pngCompression, modifyOriginal, locate, mkdirFailed, q, sessions);
      if status != Ok {
        return;
      }
      sessions' := sessions + [fileInfo];
    }
    MkdirsSucceededStep(info, i, rootDir, outputDir, locate, mkdirFailed);
  }

  /** PrePrepare's loop over the listing entries */
  method BuildQueue(info: seq<DirEntry>, rootDir: string, outputDir: string, nJobs: int, pngCompression: int,
                    modifyOriginal: bool, locate: string -> (string, string), mkdirFailed: string -> bool)
    returns (status: Status, q: seq<RobotJob>, ghost bad: nat)
    ensures status == Ok ==>
      && Built(q, SessionDirs(info), rootDir, outputDir, nJobs, pngCompression, modifyOriginal, locate)
    ensures status != Ok ==>
      bad < |info| && IsSessionDir(info[bad]) &&
      MkdirsSucceeded(info[..bad], rootDir, outputDir, locate, mkdirFailed) &&
      var path := OutputPath(outputDir, info[bad], locate(Join(rootDir, info[bad].name)).1);
      mkdirFailed(path) && status == Fatal(MkdirMsg(path))
  {
    q := [];
    ghost var sessions := [];
    var i := 0;
    while i < |info|
      invariant 0 <= i <= |info|
      invariant sessions == SessionDirs(info[..i])
      invariant Built(q, sessions, rootDir, outputDir, nJobs, pngCompression, modifyOriginal, locate)
      invariant MkdirsSucceeded(info[..i], rootDir, outputDir, locate, mkdirFailed)
    {
      var st;
      st, q, sessions := BuildStep(info, i, rootDir, outputDir, nJobs, pngCompression, modifyOriginal, locate, mkdirFailed, q, sessions);
      if st != Ok {
        return st, q, i;
      }
      i := i + 1;
    }
    assert info[..i] == info;
    status, bad := Ok, 0;
  }

  class CollectionJob {
    var queue: seq<RobotJob>   // the jobs in the Queue channel, in send order
    var queueCap: int          // cap(Queue)
    var closed: bool           // close(Queue) has been called
    var rootDir: string

    /** `var job CollectionJob`: a nil queue and an empty RootDir */
    constructor ()
      ensures queue == [] && queueCap == 0 && !closed && rootDir == ""
    {
      queue, queueCap, closed, rootDir := [], 0, false, "";
    }

    /** Builds one job per session directory of the root directory's listing
        (`listing` is what ioutil.ReadDir(rootDir) returned), in listing order,
        into a queue whose capacity is the listing length, and closes the
        queue. A listing error ends the process with a message that names the
        RootDir field, which nothing sets, rather than the `rootDir` argument;
        a job whose output directory cannot be created (`mkdirFailed`) ends it
        too. */
    method PrePrepare(rootDir: string, outputDir: string, nJobs: int, pngCompression: int, modifyOriginal: bool,
                      listing: Listing, locate: string -> (string, string), mkdirFailed: string -> bool)
      returns (status: Status)
      modifies this
      ensures this.rootDir == old(this.rootDir)
      ensures listing.Failure? ==>
        status == Fatal(ListErrorMsg(old(this.rootDir)))
        && queue == old(queue) && queueCap == old(queueCap) && closed == old(closed)
      ensures listing.Success? && status == Ok ==>
        && queueCap == |listing.value| && closed
        && Built(queue, SessionDirs(listing.value), rootDir, outputDir, nJobs, pngCompression, modifyOriginal, locate)
      ensures listing.Success? && status != Ok ==>
        exists k :: 0 <= k < |listing.value| && IsSessionDir(listing.value[k]) &&
          MkdirsSucceeded(listing.value[..k], rootDir, outputDir, locate, mkdirFailed) &&
          var e := listing.value[k];
          var path := OutputPath(outputDir, e, locate(Join(rootDir, e.name)).1);
          mkdirFailed(path) && status == Fatal(MkdirMsg(path))
    {
      if listing.Failure? {
        return Fatal(ListErrorMsg(this.rootDir));
      }
      var q;
      ghost var bad;
      status, q, bad := BuildQueue(listing.value, rootDir, outputDir, nJobs, pngCompression, modifyOriginal, locate, mkdirFailed);
      if status == Ok {
        queue, queueCap, closed := q, |listing.value|, true;
      } else {
        assert IsSessionDir(listing.value[bad]);
      }
    }

    /** Not implemented in the source: it changes nothing */
    method Prepare()
      modifies this
      ensures unchanged(this)
    {
    }

    /** One pass of Run's loop: job `i` of `jobs` is taken off the queue and
        prepared and run */
    method RunNext(inputs: seq<JobInput>, ghost jobs: seq<RobotJob>, i: nat) returns (status: Status)
      requires |inputs| == |jobs| && i < |jobs| && queue == jobs[i..]
      requires forall k, l :: 0 <= k < l < |jobs| ==> jobs[k] != jobs[l]
      requires forall k :: i <= k < |jobs| ==> jobs[k].Valid()
      requires forall k :: 0 <= k < i ==> Completed(jobs[k], inputs[k])
      modifies this, jobs[i]
      ensures queue == jobs[i + 1..] && closed == old(closed) && rootDir == old(rootDir)
      ensures jobs[i].ConfigUnchanged()
      ensures status == JobOutcome(jobs[i].nJobs, jobs[i].replayJsonPath, inputs[i])
      ensures forall k :: i < k < |jobs| ==> jobs[k].Valid()
      ensures forall k :: 0 <= k < i ==> Completed(jobs[k], inputs[k])
      ensures status == Ok ==> Completed(jobs[i], inputs[i])
    {
      var rjc := queue[0];
      queue := queue[1..];
      status := RunJob(rjc, inputs[i]);
    }

    /** Drains the queue, in queue order, calling Prepare and then Run on each
        job (`inputs[k]` is what job k reads and receives). The first job that
        ends the process stops the drain; a queue that was never closed blocks
        the drain once it is empty, which the Go runtime reports as a deadlock.
        `done` counts the jobs that finished. */
    method Run(inputs: seq<JobInput>) returns (status: Status, ghost done: nat)
      requires |inputs| == |queue|
      requires forall k :: 0 <= k < |queue| ==> queue[k].Valid()
      requires forall k, l :: 0 <= k < l < |queue| ==> queue[k] != queue[l]
      modifies this, queue
      ensures closed == old(closed) && rootDir == old(rootDir)
      ensures done <= |old(queue)|
      ensures forall k :: 0 <= k < |old(queue)| ==> old(queue)[k].ConfigUnchanged()
      ensures forall k :: 0 <= k < done ==> Completed(old(queue)[k], inputs[k])
      ensures status == Ok ==> closed && queue == [] && done == |old(queue)|
      ensures status != Ok && done == |old(queue)| ==> !closed && status == Fatal(DeadlockMsg)
      ensures status != Ok && done < |old(queue)| ==>
        && queue == old(queue)[done + 1..]
        && status == JobOutcome(old(queue)[done].nJobs, old(queue)[done].replayJsonPath, inputs[done])
    {
      ghost var jobs := queue;
      var i := 0;
      while queue != []
        invariant 0 <= i <= |jobs| && queue == jobs[i..]
        decreases |jobs| - i
        invariant closed == old(closed) && rootDir == old(rootDir)
        invariant forall k :: i <= k < |jobs| ==> jobs[k].Valid()
        invariant forall k :: 0 <= k < |jobs| ==> jobs[k].ConfigUnchanged()
        invariant forall k :: 0 <= k < i ==> Completed(jobs[k], inputs[k])
      {
        var st := RunNext(inputs, jobs, i);
        if st != Ok {
          return st, i;
        }
        i := i + 1;
      }
      assert |jobs[i..]| == 0;
      done := i;
      if !closed {
        return Fatal(DeadlockMsg), done;
      }
      status := Ok;
    }
  }
}
