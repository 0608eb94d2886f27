/** Session discovery shared by models/CollectionJob.go and
    logic/superJobHandling.go: the entries of the root directory that are
    directories named after a robot's address in the 10.1.24.x network. */
module Discovery {
  import opened Types
  import opened Strings

  /** The name prefix of a robot's session directory */
  const SessionPrefix := "10.1.24."

  /** errors.Check's message when the root directory cannot be listed */
  function ListErrorMsg(dir: string): string
  {
    "Reading contents of " + dir + " failed!"
  }

  /** A listing entry that gets a job */
  predicate IsSessionDir(e: DirEntry)
  {
    e.isDir && HasPrefix(e.name, SessionPrefix)
  }

  /** The entries that get a job, in listing order */
  function SessionDirs(listing: seq<DirEntry>): (r: seq<DirEntry>)
    ensures |r| <= |listing|
  {
    if listing == [] then []
    else
      var last := listing[|listing| - 1];
      SessionDirs(listing[..|listing| - 1]) + (if IsSessionDir(last) then [last] else [])
  }

  /** One more entry: the job list grows by that entry exactly when it is a
      session directory */
  lemma SessionDirsStep(listing: seq<DirEntry>, i: nat)
    requires i < |listing|
    ensures SessionDirs(listing[..i + 1])
      == SessionDirs(listing[..i]) + (if IsSessionDir(listing[i]) then [listing[i]] else [])
  {
    assert listing[..i + 1][..i] == listing[..i];
  }

  /** An entry gets a job iff it is in the listing and is a session directory */
  lemma {:induction false} SessionDirsMembership(listing: seq<DirEntry>, e: DirEntry)
    ensures e in SessionDirs(listing) <==> e in listing && IsSessionDir(e)
    decreases |listing|
  {
    if listing != [] {
      var front := listing[..|listing| - 1];
      SessionDirsMembership(front, e);
      assert listing == front + [listing[|listing| - 1]];
    }
  }

  /** The filter keeps listing order: filtering a concatenation concatenates
      the filtered parts */
  lemma {:induction false} SessionDirsAppend(a: seq<DirEntry>, b: seq<DirEntry>)
    ensures SessionDirs(a + b) == SessionDirs(a) + SessionDirs(b)
    decreases |b|
  {
    if b == [] {
      assert a + b == a;
    } else {
      var front := b[..|b| - 1];
      assert (a + b)[..|a + b| - 1] == a + front;
      assert (a + b)[|a + b| - 1] == b[|b| - 1];
      SessionDirsAppend(a, front);
    }
  }

  /** Every job's entry is a session directory, and each session directory gets
      exactly one job per listing entry */
  lemma {:induction false} SessionDirsCount(listing: seq<DirEntry>)
    ensures forall k :: 0 <= k < |SessionDirs(listing)| ==> IsSessionDir(SessionDirs(listing)[k])
    ensures |SessionDirs(listing)| == |listing| <==> forall k :: 0 <= k < |listing| ==> IsSessionDir(listing[k])
    decreases |listing|
  {
    if listing != [] {
      var front := listing[..|listing| - 1];
      SessionDirsCount(front);
      if !IsSessionDir(listing[|listing| - 1]) {
        assert |SessionDirs(listing)| < |listing|;
      }
    }
  }
}
