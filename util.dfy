/** util/util.go: locating a robot's replay.json under its session directory,
    loading it, the first-match directory search and home-directory
    expansion. */
module Util {
  import opened Wrappers
  import opened Types
  import opened Strings
  import opened Paths
  import opened Containers

  /** The pattern of the directory that holds a session's replay.json */
  const ReplayDirPattern := "replay_*"

  /** The manifest's file name */
  const ReplayJsonName := "replay.json"

  /** filepath.Match on a bare file name, for the patterns the converter uses:
      a pattern ending in '*' matches every name that starts with the rest of
      the pattern; any other pattern matches itself only */
  predicate Matches(pattern: string, name: string)
  {
    if pattern != [] && pattern[|pattern| - 1] == '*' then HasPrefix(name, pattern[..|pattern| - 1])
    else name == pattern
  }

  /** The position of the first entry whose name matches `pattern` */
  function FirstMatch(entries: seq<DirEntry>, pattern: string): (r: Option<nat>)
    ensures r.Some? ==> r.value < |entries| && Matches(pattern, entries[r.value].name)
    decreases |entries|
  {
    if entries == [] then None
    else if Matches(pattern, entries[0].name) then Some(0)
    else match FirstMatch(entries[1..], pattern)
      case None => None
      case Some(i) => Some(i + 1)
  }

  /** The first match matches and nothing before it does; with no first
      match, no entry matches */
  lemma {:induction false} FirstMatchSpec(entries: seq<DirEntry>, pattern: string)
    ensures var r := FirstMatch(entries, pattern);
      && (r.Some? ==> Matches(pattern, entries[r.value].name))
      && (r.Some? ==> forall j :: 0 <= j < r.value ==> !Matches(pattern, entries[j].name))
      && (r.None? ==> forall j :: 0 <= j < |entries| ==> !Matches(pattern, entries[j].name))
    decreases |entries|
  {
    if entries != [] && !Matches(pattern, entries[0].name) {
      var rest := entries[1..];
      FirstMatchSpec(rest, pattern);
      assert forall j :: 1 <= j < |entries| ==> entries[j] == rest[j - 1];
    }
  }

  /** errors.Check's message when a directory cannot be listed */
  function ReadDirMsg(path: string): string
  {
    "Error reading contents of directory " + path
  }

  /** MatchPatternInPath: the first entry of the listing of `path` whose name
      matches `pattern`, or None. `listing` is what ioutil.ReadDir(path)
      returned; a listing error ends the process. */
  method MatchPatternInPath(path: string, pattern: string, listing: Listing) returns (status: Status, f: Option<DirEntry>)
    ensures listing.Failure? ==> status == Fatal(ReadDirMsg(path)) && f.None?
    ensures listing.Success? ==> status == Ok
    ensures listing.Success? ==>
      match FirstMatch(listing.value, pattern)
      case None => f.None?
      case Some(i) => f == Some(listing.value[i])
  {
    if listing.Failure? {
      return Fatal(ReadDirMsg(path)), None;
    }
    var files := listing.value;
    var i := 0;
    while i < |files|
      invariant 0 <= i <= |files|
      invariant forall j :: 0 <= j < i ==> !Matches(pattern, files[j].name)
    {
      if Matches(pattern, files[i].name) {
        FirstMatchIs(files, pattern, i);
        return Ok, Some(files[i]);
      }
      i := i + 1;
    }
    FirstMatchSpec(files, pattern);
    return Ok, None;
  }

  /** A matching entry with no match before it is the first match */
  lemma FirstMatchIs(entries: seq<DirEntry>, pattern: string, i: nat)
    requires i < |entries| && Matches(pattern, entries[i].name)
    requires forall j :: 0 <= j < i ==> !Matches(pattern, entries[j].name)
    ensures FirstMatch(entries, pattern) == Some(i)
  {
    FirstMatchSpec(entries, pattern);
  }

  /** ExpandHome: "~" is the home directory, "~/rest" is rest under the home
      directory, and every other path is kept. `home` is what
      os.UserHomeDir returned ("" when it failed, which is ignored). */
  function ExpandHome(path: string, home: string): (r: string)
    ensures r != path ==> HasPrefix(path, "~")
  {
    if path == "~" then home
    else if HasPrefix(path, "~/") then Join(home, path[2..])
    else path
  }

  /** ExpandHome rewrites exactly "~" and the paths under "~/": any other path,
      "~user/x" or "/a/~" among them, comes back unchanged, and the prefix it
      strips is exactly the two characters "~/" */
  lemma ExpandHomeCases(path: string, home: string)
    ensures path == "~" ==> ExpandHome(path, home) == home
    ensures HasPrefix(path, "~/") ==> path == "~/" + path[2..] && ExpandHome(path, home) == Join(home, path[2..])
    ensures path != "~" && !HasPrefix(path, "~/") ==> ExpandHome(path, home) == path
    ensures ExpandHome("~user/x", home) == "~user/x" && ExpandHome("/a/~", home) == "/a/~"
  {
    assert !HasPrefix("~user/x", "~/") by { assert "~user/x"[1] == 'u'; }
    assert !HasPrefix("/a/~", "~/") by { assert "/a/~"[0] == '/'; }
  }

  /** With a home directory that is set and does not itself start with '~',
      expanding twice is expanding once */
  lemma ExpandHomeIdempotent(path: string, home: string)
    requires home != "" && home[0] != '~'
    ensures ExpandHome(ExpandHome(path, home), home) == ExpandHome(path, home)
  {
    var r := ExpandHome(path, home);
    if path == "~" || HasPrefix(path, "~/") {
      assert r[0] == home[0];
      assert r != "~" && !HasPrefix(r, "~/");
    }
  }

  /** LoadReplayJson's errors.Check messages; unlike RobotJob's they do not
      name the file */
  function LoadMsg(e: LoadError): string
  {
    match e
    case ReadError => "Error reading from file"
    case ParseError => "Failed to parse json"
  }

  /** The manifest path GetReplayJsonFromDir derives for a replay directory */
  function ReplayJsonPathFor(cwd: string, replayDir: string): string
  {
    Join(Abs(cwd, Clean(replayDir)), ReplayJsonName)
  }

  /** The message of the error FindReplayJson returns */
  function NotFoundMsg(dir: string): string
  {
    "No replay.json could be found in " + dir
  }

  /** GetReplayJsonFromDir: makes the replay directory absolute against the
      working directory `cwd`, puts replay.json under it and loads it
      (`loaded` is what reading and parsing that file gave). A load error ends
      the process. */
  method GetReplayJsonFromDir(rjc: ReplayJsonContainer, replayDir: string, cwd: string, loaded: Result<Info, LoadError>)
    returns (status: Status)
    modifies rjc
    ensures rjc.replayDirAbs == Abs(cwd, Clean(replayDir))
    ensures rjc.replayJsonPath == ReplayJsonPathFor(cwd, replayDir)
    ensures loaded.Failure? ==> status == Fatal(LoadMsg(loaded.error)) && rjc.replayJson == old(rjc.replayJson)
    ensures loaded.Success? ==> status == Ok && rjc.replayJson == loaded.value
    ensures rjc.robotName == old(rjc.robotName) && rjc.robotPath == old(rjc.robotPath)
    ensures rjc.outputDir == old(rjc.outputDir) && rjc.nJobs == old(rjc.nJobs)
    ensures rjc.compressionLevel == old(rjc.compressionLevel) && rjc.modifyOriginal == old(rjc.modifyOriginal)
  {
    rjc.replayDirAbs := Abs(cwd, Clean(replayDir));
    rjc.replayJsonPath := Join(rjc.replayDirAbs, ReplayJsonName);
    if loaded.Failure? {
      return Fatal(LoadMsg(loaded.error));
    }
    rjc.replayJson := loaded.value;
    status := Ok;
  }

  /** FindReplayJson: the first "replay_*" entry of the robot directory's
      listing is the replay directory, whose replay.json is then loaded; with
      no such entry the container is left alone and a not-found error naming
      the robot directory is returned. A listing error ends the process. */
  method FindReplayJson(rjc: ReplayJsonContainer, listing: Listing, cwd: string, loaded: Result<Info, LoadError>)
    returns (status: Status, err: Option<string>)
    modifies rjc
    ensures listing.Failure? ==> status == Fatal(ReadDirMsg(old(rjc.robotPath))) && err.None? && unchanged(rjc)
    ensures listing.Success? && FirstMatch(listing.value, ReplayDirPattern).None? ==>
      status == Ok && err == Some(NotFoundMsg(old(rjc.robotPath))) && unchanged(rjc)
    ensures listing.Success? && FirstMatch(listing.value, ReplayDirPattern).Some? ==>
      var replayDir := Join(old(rjc.robotPath), listing.value[FirstMatch(listing.value, ReplayDirPattern).value].name);
      && err.None?
      && rjc.replayDirAbs == Abs(cwd, Clean(replayDir))
      && rjc.replayJsonPath == ReplayJsonPathFor(cwd, replayDir)
      && status == (if loaded.Success? then Ok else Fatal(LoadMsg(loaded.error)))
      && (loaded.Success? ==> rjc.replayJson == loaded.value)
      && rjc.robotName == old(rjc.robotName) && rjc.robotPath == old(rjc.robotPath)
      && rjc.outputDir == old(rjc.outputDir) && rjc.nJobs == old(rjc.nJobs)
      && rjc.compressionLevel == old(rjc.compressionLevel) && rjc.modifyOriginal == old(rjc.modifyOriginal)
  {
    var st, f := MatchPatternInPath(rjc.robotPath, ReplayDirPattern, listing);
    if st != Ok {
      return st, None;
    }
    if f.Some? {
      var replayDir := Join(rjc.robotPath, f.value.name);
      status := GetReplayJsonFromDir(rjc, replayDir, cwd, loaded);
      return status, None;
    }
    return Ok, Some(NotFoundMsg(rjc.robotPath));
  }

  /** The manifest found for a replay directory `name` under an absolute robot
      directory: its directory is the replay directory, and its grandparent,
      which RobotJob.PrePrepare takes as the robot name, is the robot
      directory itself */
  lemma ReplayJsonLocation(cwd: string, robotPath: string, name: string)
    requires HasPrefix(robotPath, [Separator]) && name != "" && Separator !in name
    ensures var replayDir := Join(robotPath, name);
      && ReplayJsonPathFor(cwd, replayDir) == robotPath + [Separator] + name + [Separator] + ReplayJsonName
      && Dir(ReplayJsonPathFor(cwd, replayDir)) == replayDir
      && Dir(Dir(ReplayJsonPathFor(cwd, replayDir))) == robotPath
  {
    var replayDir := Join(robotPath, name);
    assert replayDir == robotPath + [Separator] + name;
    assert HasPrefix(replayDir, [Separator]);
    assert Abs(cwd, Clean(replayDir)) == replayDir;
    assert Separator !in ReplayJsonName;
    DirOfJoin(replayDir, ReplayJsonName);
    DirOfJoin(robotPath, name);
  }
}
