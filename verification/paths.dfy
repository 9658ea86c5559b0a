/** The part of `pathlib.PurePosixPath` that the traversal rule of the discovery
    parameters relies on: splitting a path string into its parts and asking
    whether one of them is the parent-directory token "..". */
module Paths {

  const ParentToken: string := ".."

  /** Length of the first `/`-separated segment of `s`. */
  function SegmentEnd(s: string): (n: nat)
    ensures n <= |s|
    ensures forall j :: 0 <= j < n ==> s[j] != '/'
    ensures n < |s| ==> s[n] == '/'
  {
    if |s| == 0 || s[0] == '/' then 0 else 1 + SegmentEnd(s[1..])
  }

  /** The `/`-separated segments of `s`, empty ones included. */
  function Split(s: string): (r: seq<string>)
    ensures |r| >= 1
    ensures forall k :: 0 <= k < |r| ==> '/' !in r[k]
    decreases |s|
  {
    var n := SegmentEnd(s);
    if n == |s| then [s] else [s[..n]] + Split(s[n + 1..])
  }

  /** The segments joined back with `/` between them. */
  function Join(segments: seq<string>): string
    requires |segments| >= 1
  {
    if |segments| == 1 then segments[0] else segments[0] + "/" + Join(segments[1..])
  }

  /** `Path(s).parts` on POSIX, without the root anchor: pathlib drops empty
      segments (from `//` or a trailing `/`) and `.` segments. */
  function Parts(s: string): (r: seq<string>)
    ensures forall k :: 0 <= k < |r| ==> r[k] != "" && r[k] != "." && '/' !in r[k]
  {
    DropTrivial(Split(s))
  }

  function DropTrivial(segments: seq<string>): (r: seq<string>)
    requires forall k :: 0 <= k < |segments| ==> '/' !in segments[k]
    ensures forall k :: 0 <= k < |r| ==> r[k] != "" && r[k] != "." && '/' !in r[k]
  {
    if segments == [] then []
    else if segments[0] == "" || segments[0] == "." then DropTrivial(segments[1..])
    else [segments[0]] + DropTrivial(segments[1..])
  }

  /** The test `".." in Path(v).parts`. */
  predicate HasParentPart(s: string) {
    ParentToken in Parts(s)
  }

  /** Character-level reference: a ".." in `s` that is bounded on each side by
      the start or end of `s` or by a `/`. */
  ghost predicate ParentTokenAt(s: string, i: int) {
    && 0 <= i && i + 2 <= |s|
    && s[i] == '.' && s[i + 1] == '.'
    && (i == 0 || s[i - 1] == '/')
    && (i + 2 == |s| || s[i + 2] == '/')
  }

  ghost predicate HasParentToken(s: string) {
    exists i :: ParentTokenAt(s, i)
  }

  /** Splitting loses nothing: the segments join back to the original string. */
  lemma {:induction false} JoinSplit(s: string)
    ensures Join(Split(s)) == s
    decreases |s|
  {
    var n := SegmentEnd(s);
    if n < |s| {
      var t := s[n + 1..];
      JoinSplit(t);
      SplitStep(s, n);
      JoinStep(s[..n], Split(t));
      CutAtSlash(s, n);
    }
  }

  /** One step of `Split`: the first segment, then the segments after the `/`. */
  lemma {:induction false} SplitStep(s: string, n: nat)
    requires n == SegmentEnd(s) < |s|
    ensures Split(s) == [s[..n]] + Split(s[n + 1..])
  {
  }

  /** One step of `Join`. */
  lemma {:induction false} JoinStep(first: string, rest: seq<string>)
    requires |rest| >= 1
    ensures Join([first] + rest) == first + "/" + Join(rest)
  {
    assert ([first] + rest)[1..] == rest;
  }

  /** A string cut at one of its `/` is the part before, the `/`, the part after. */
  lemma {:induction false} CutAtSlash(s: string, n: nat)
    requires n < |s| && s[n] == '/'
    ensures s == s[..n] + "/" + s[n + 1..]
  {
  }

  /** Dropping empty and `.` segments never drops a "..". */
  lemma {:induction false} DropTrivialKeepsParent(segments: seq<string>)
    requires forall k :: 0 <= k < |segments| ==> '/' !in segments[k]
    ensures ParentToken in DropTrivial(segments) <==> ParentToken in segments
  {
    if segments != [] {
      DropTrivialKeepsParent(segments[1..]);
      assert segments == [segments[0]] + segments[1..];
    }
  }

  lemma PartsKeepParent(s: string)
    ensures HasParentPart(s) <==> ParentToken in Split(s)
  {
    DropTrivialKeepsParent(Split(s));
  }

  /** A string without `/` is a single segment. */
  lemma SingleSegment(s: string)
    requires '/' !in s
    ensures Split(s) == [s]
  {
  }

  /** Inside the first segment no ".." can start after position 0. */
  lemma NoTokenInsideFirstSegment(s: string, i: int)
    requires 0 < i <= SegmentEnd(s)
    ensures !ParentTokenAt(s, i)
  {
  }

  /** The first segment is ".." exactly when a ".." token sits at position 0. */
  lemma FirstSegmentParent(s: string)
    ensures s[..SegmentEnd(s)] == ParentToken <==> ParentTokenAt(s, 0)
  {
    var n := SegmentEnd(s);
    if s[..n] == ParentToken {
      assert s[0] == s[..n][0] && s[1] == s[..n][1];
    }
    if ParentTokenAt(s, 0) {
      assert n == 2;
      assert s[..n] == [s[0], s[1]];
    }
  }

  /** A token in what follows a `/` is a token of the whole string, shifted
      past that `/`. */
  lemma ShiftToken(s: string, n: nat, j: nat)
    requires n < |s| && s[n] == '/'
    ensures ParentTokenAt(s[n + 1..], j) <==> ParentTokenAt(s, j + n + 1)
  {
    var t := s[n + 1..];
    var i := j + n + 1;
    if 0 <= j && j + 2 <= |t| {
      assert t[j] == s[i] && t[j + 1] == s[i + 1];
      if j > 0 {
        assert t[j - 1] == s[i - 1];
      }
      if j + 2 < |t| {
        assert t[j + 2] == s[i + 2];
      }
    }
  }

  /** `".." in Path(s).parts` agrees with the character-level reference. */
  lemma {:induction false} ParentPartIffToken(s: string)
    ensures HasParentPart(s) <==> HasParentToken(s)
  {
    PartsKeepParent(s);
    SplitParentIffToken(s);
  }

  lemma {:induction false} SplitParentIffToken(s: string)
    ensures ParentToken in Split(s) <==> HasParentToken(s)
    decreases |s|
  {
    var n := SegmentEnd(s);
    FirstSegmentParent(s);
    if n == |s| {
      assert Split(s) == [s];
      assert s[..n] == s;
      if HasParentToken(s) {
        var i :| ParentTokenAt(s, i);
        if i > 0 {
          NoTokenInsideFirstSegment(s, i);
        }
      }
    } else {
      var t := s[n + 1..];
      SplitParentIffToken(t);
      assert Split(s) == [s[..n]] + Split(t);
      if ParentToken in Split(t) {
        var j :| ParentTokenAt(t, j);
        ShiftToken(s, n, j);
      }
      if HasParentToken(s) {
        var i :| ParentTokenAt(s, i);
        if 0 < i <= n {
          NoTokenInsideFirstSegment(s, i);
        } else if i > n {
          ShiftToken(s, n, i - n - 1);
          assert ParentTokenAt(t, i - n - 1);
        }
      }
    }
  }

  /** A segment-free name is rejected only when it is ".." itself, so names
      such as "a..b" or "..." are allowed. */
  lemma SingleNameParent(s: string)
    requires '/' !in s
    ensures HasParentPart(s) <==> s == ParentToken
  {
    SingleSegment(s);
    PartsKeepParent(s);
  }

  /** Any path that starts by climbing out ("../x") has a parent part. */
  lemma {:induction false} LeadingParent(t: string)
    ensures HasParentPart(ParentToken + "/" + t)
  {
    var s := ParentToken + "/" + t;
    assert ParentTokenAt(s, 0);
    ParentPartIffToken(s);
  }

  /** A ".." segment anywhere, "a/../b" included, is a parent part. */
  lemma {:induction false} InnerParent(a: string, b: string)
    ensures HasParentPart(a + "/" + ParentToken + "/" + b)
  {
    var s := a + "/" + ParentToken + "/" + b;
    assert ParentTokenAt(s, |a| + 1);
    ParentPartIffToken(s);
  }
}
