/** The parts of Go's `path/filepath` package the converter relies on, on
    slash-separated strings. filepath.Clean is not modelled (it is the identity
    here), so Join and Dir do not normalise repeated separators or ".." elements. */
module Paths {
  import opened Wrappers
  import opened Strings

  const Separator: char := '/'

  /** filepath.Join of two elements: empty elements are dropped */
  function Join(a: string, b: string): (r: string)
    ensures a == "" ==> r == b
    ensures b == "" ==> r == a
    ensures a != "" && b != "" ==> |r| == |a| + 1 + |b| && r[..|a|] == a && r[|a|] == Separator && r[|a| + 1..] == b
  {
    if a == "" then b
    else if b == "" then a
    else a + [Separator] + b
  }

  /** filepath.Join of three elements */
  function Join3(a: string, b: string, c: string): string
  {
    Join(Join(a, b), c)
  }

  /** Position of the last separator in `p`, if any */
  function LastSeparator(p: string): (r: Option<nat>)
    ensures r.Some? ==> r.value < |p| && p[r.value] == Separator
    ensures r.Some? ==> forall j :: r.value < j < |p| ==> p[j] != Separator
    ensures r.None? ==> Separator !in p
    decreases |p|
  {
    if p == [] then None
    else if p[|p| - 1] == Separator then Some(|p| - 1)
    else LastSeparator(p[..|p| - 1])
  }

  /** filepath.Dir: everything before the last separator; "/" for a file in the
      root and "." for a name without a separator */
  function Dir(p: string): string
  {
    match LastSeparator(p)
    case None => "."
    case Some(i) => if i == 0 then [Separator] else p[..i]
  }

  /** filepath.Clean, not modelled: paths are taken to be clean already */
  function Clean(p: string): string
  {
    p
  }

  /** filepath.Abs against the working directory `cwd`, which the process's
      environment supplies */
  function Abs(cwd: string, p: string): string
  {
    if HasPrefix(p, [Separator]) then p else Join(cwd, p)
  }

  /** Dir undoes a Join with a single path element */
  lemma DirOfJoin(d: string, name: string)
    requires d != "" && name != "" && Separator !in name
    ensures Dir(Join(d, name)) == d
  {
    var p := Join(d, name);
    assert p == d + [Separator] + name;
    LastSeparatorIs(p, |d|);
  }

  lemma {:induction false} LastSeparatorIs(p: string, i: nat)
    requires i < |p| && p[i] == Separator
    requires forall j :: i < j < |p| ==> p[j] != Separator
    ensures LastSeparator(p) == Some(i)
    decreases |p|
  {
    if i < |p| - 1 {
      LastSeparatorIs(p[..|p| - 1], i);
    }
  }

  /** A joined path lies under its first element */
  lemma JoinUnder(root: string, rest: string)
    ensures HasPrefix(Join(root, rest), root)
  {
  }
}
