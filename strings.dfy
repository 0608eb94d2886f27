/** The few functions of Go's `strings` package the converter relies on. */
module Strings {
  import opened Wrappers

  /** strings.HasPrefix */
  predicate HasPrefix(s: string, prefix: string)
  {
    |prefix| <= |s| && s[..|prefix|] == prefix
  }

  /** `pat` occurs in `s` starting at position `i` */
  predicate OccursAt(s: string, pat: string, i: nat)
  {
    i + |pat| <= |s| && s[i..i + |pat|] == pat
  }

  /** The first occurrence of `pat` in `s` at or after `from`; strings.Index is IndexFrom(s, pat, 0) */
  function IndexFrom(s: string, pat: string, from: nat): (r: Option<nat>)
    requires from <= |s|
    ensures r.Some? ==> from <= r.value && OccursAt(s, pat, r.value)
    ensures r.Some? ==> forall j :: from <= j < r.value ==> !OccursAt(s, pat, j)
    ensures r.None? ==> forall j :: from <= j <= |s| ==> !OccursAt(s, pat, j)
    decreases |s| - from
  {
    if OccursAt(s, pat, from) then Some(from)
    else if from == |s| then None
    else IndexFrom(s, pat, from + 1)
  }

  /** strings.Index, with -1 as None */
  function Index(s: string, pat: string): Option<nat>
  {
    IndexFrom(s, pat, 0)
  }

  /** strings.Replace(s, target, replacement, 1): replace the first occurrence of `target`, if any */
  function ReplaceFirst(s: string, target: string, replacement: string): string
  {
    match Index(s, target)
    case None => s
    case Some(i) => s[..i] + replacement + s[i + |target|..]
  }

  /** Replacing by a string of the same length keeps the length, and the result
      equals the input exactly when `target` does not occur in it. */
  lemma ReplaceFirstSameLength(s: string, target: string, replacement: string)
    requires |target| == |replacement| && target != replacement
    ensures |ReplaceFirst(s, target, replacement)| == |s|
    ensures ReplaceFirst(s, target, replacement) == s <==> Index(s, target).None?
  {
    match Index(s, target)
    case None =>
    case Some(i) =>
      var r := ReplaceFirst(s, target, replacement);
      assert r[i..i + |replacement|] == replacement;
      assert s[i..i + |target|] == target;
  }

  /** When `pat` does not occur in `a` and cannot straddle the boundary because it
      does not contain the joining character `c`, the first occurrence of `pat` in
      a + [c] + b is the first occurrence in `b`, shifted. */
  lemma IndexAfterSeparator(a: string, c: char, b: string, pat: string)
    requires pat != [] && c !in pat
    requires Index(a, pat).None?
    ensures Index(a + [c] + b, pat) ==
      match Index(b, pat) case None => None case Some(k) => Some(|a| + 1 + k)
  {
    match Index(b, pat)
    case None => NotFoundAfterSeparator(a, c, b, pat);
    case Some(k) => FoundAfterSeparator(a, c, b, pat, k);
  }

  lemma NotFoundAfterSeparator(a: string, c: char, b: string, pat: string)
    requires pat != [] && c !in pat
    requires Index(a, pat).None? && Index(b, pat).None?
    ensures Index(a + [c] + b, pat).None?
  {
    var s := a + [c] + b;
    NoOccurrenceBeforeSeparator(a, c, b, pat);
    forall j | |a| + 1 <= j < |s|
      ensures !OccursAt(s, pat, j)
    {
      OccurrenceAfterSeparator(a, c, b, pat, j - |a| - 1);
    }
    IndexFromSkips(s, pat, 0, |s|);
  }

  lemma FoundAfterSeparator(a: string, c: char, b: string, pat: string, k: nat)
    requires pat != [] && c !in pat
    requires Index(a, pat).None? && Index(b, pat) == Some(k)
    ensures Index(a + [c] + b, pat) == Some(|a| + 1 + k)
  {
    var s := a + [c] + b;
    var m := |a| + 1 + k;
    NoOccurrenceBeforeSeparator(a, c, b, pat);
    OccurrenceAfterSeparator(a, c, b, pat, k);
    forall j | |a| + 1 <= j < m
      ensures !OccursAt(s, pat, j)
    {
      OccurrenceAfterSeparator(a, c, b, pat, j - |a| - 1);
    }
    IndexFromFirst(s, pat, 0, m);
  }

  lemma NoOccurrenceBeforeSeparator(a: string, c: char, b: string, pat: string)
    requires pat != [] && c !in pat
    requires Index(a, pat).None?
    ensures forall j :: 0 <= j <= |a| ==> !OccursAt(a + [c] + b, pat, j)
  {
    var s := a + [c] + b;
    forall j | 0 <= j <= |a|
      ensures !OccursAt(s, pat, j)
    {
      if j + |pat| <= |a| {
        assert s[j..j + |pat|] == a[j..j + |pat|];
        assert !OccursAt(a, pat, j);
      } else if j + |pat| <= |s| {
        assert s[j..j + |pat|][|a| - j] == c;
        assert c in s[j..j + |pat|];
      }
    }
  }

  lemma OccurrenceAfterSeparator(a: string, c: char, b: string, pat: string, j: nat)
    requires j <= |b|
    ensures OccursAt(a + [c] + b, pat, |a| + 1 + j) <==> OccursAt(b, pat, j)
  {
    var s := a + [c] + b;
    if j + |pat| <= |b| {
      assert s[|a| + 1 + j..|a| + 1 + j + |pat|] == b[j..j + |pat|];
    }
  }

  /** Positions with no occurrence can be skipped */
  lemma {:induction false} IndexFromSkips(s: string, pat: string, from: nat, stop: nat)
    requires from <= stop <= |s|
    requires forall j :: from <= j < stop ==> !OccursAt(s, pat, j)
    ensures IndexFrom(s, pat, from) == IndexFrom(s, pat, stop)
    decreases stop - from
  {
    if from < stop {
      IndexFromSkips(s, pat, from + 1, stop);
    }
  }

  /** Appending to a string keeps the first occurrence it already has */
  lemma IndexOfExtended(a: string, b: string, pat: string, k: nat)
    requires Index(a, pat) == Some(k)
    ensures Index(a + b, pat) == Some(k)
  {
    var s := a + b;
    forall j | 0 <= j < k
      ensures !OccursAt(s, pat, j)
    {
      assert !OccursAt(a, pat, j);
      assert s[j..j + |pat|] == a[j..j + |pat|];
    }
    assert s[k..k + |pat|] == a[k..k + |pat|];
    IndexFromFirst(s, pat, 0, k);
  }

  /** An occurrence with none before it is the one IndexFrom finds */
  lemma IndexFromFirst(s: string, pat: string, from: nat, m: nat)
    requires from <= m <= |s| && OccursAt(s, pat, m)
    requires forall j :: from <= j < m ==> !OccursAt(s, pat, j)
    ensures IndexFrom(s, pat, from) == Some(m)
  {
    IndexFromSkips(s, pat, from, m);
  }
}
