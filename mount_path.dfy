/**
 * The base-path resolver of src/index.ts: the anchored JavaScript regular
 * expression  ^(.*)\/lab(?=\/|$|\?)  applied to the location's path.
 *
 * The model follows what a backtracking regex engine does with this one
 * pattern: `.*` first consumes the longest run of characters that are not
 * line terminators (JavaScript's `.` matches none of them), then gives
 * characters back one by one until the literal `/lab` and the lookahead
 * succeed. The result is therefore the text before the LAST qualifying
 * `/lab` on the path's first line.
 */
module MountPath {
  import opened Wrappers

  /** The JupyterLab mount segment. */
  const Mount: string := "/lab"

  /** The characters JavaScript's `.` does not match. */
  predicate IsLineTerminator(c: char) {
    c == '\n' || c == '\r' || c == '\U{2028}' || c == '\U{2029}'
  }

  /** Every character of `s` is matched by `.`. */
  predicate SingleLine(s: string) {
    forall k :: 0 <= k < |s| ==> !IsLineTerminator(s[k])
  }

  /** The lookahead (?=\/|$|\?) holds at position `j`. */
  predicate BoundaryAt(path: string, j: nat) {
    j == |path| || (j < |path| && (path[j] == '/' || path[j] == '?'))
  }

  /** `/lab` starts at position `i` and the lookahead holds right after it. */
  predicate MountAt(path: string, i: nat) {
    i + |Mount| <= |path| && path[i..i + |Mount|] == Mount && BoundaryAt(path, i + |Mount|)
  }

  /** The whole pattern matches with group 1 capturing `path[..i]`. */
  predicate MatchesAt(path: string, i: nat) {
    i <= |path| && SingleLine(path[..i]) && MountAt(path, i)
  }

  /** The greedy phase of `.*`: the length of the longest prefix without a line terminator. */
  function GreedyRun(path: string, from: nat): (n: nat)
    requires from <= |path|
    requires SingleLine(path[..from])
    decreases |path| - from
    ensures from <= n <= |path|
    ensures SingleLine(path[..n])
    ensures n == |path| || IsLineTerminator(path[n])
  {
    if from == |path| || IsLineTerminator(path[from]) then from
    else
      assert path[..from + 1] == path[..from] + [path[from]];
      GreedyRun(path, from + 1)
  }

  /** The backtracking phase: give back characters from capture length `n` down to 0. */
  function BackOff(path: string, n: nat): (r: Option<string>)
    requires n <= |path|
    ensures r.None? <==> forall i :: 0 <= i <= n ==> !MountAt(path, i)
    ensures r.Some? ==> |r.value| <= n && r.value == path[..|r.value|] && MountAt(path, |r.value|)
    ensures r.Some? ==> forall j :: |r.value| < j <= n ==> !MountAt(path, j)
  {
    if MountAt(path, n) then Some(path[..n])
    else if n == 0 then None
    else BackOff(path, n - 1)
  }

  /** A line-terminator-free prefix is exactly a prefix no longer than the greedy run. */
  lemma SingleLinePrefix(path: string, n: nat, i: nat)
    requires n <= |path| && SingleLine(path[..n])
    requires n == |path| || IsLineTerminator(path[n])
    requires i <= |path|
    ensures SingleLine(path[..i]) <==> i <= n
  {
    if i > n {
      assert path[..i][n] == path[n];
    } else {
      forall k | 0 <= k < i ensures !IsLineTerminator(path[..i][k]) {
        assert path[..i][k] == path[..n][k];
      }
    }
  }

  /**
   * basePath (src/index.ts:28-31): the captured group, or None (`null`) when
   * the pattern does not match. The result is the text before the last
   * position where the pattern matches, and there is none exactly when no
   * position matches.
   */
  function BasePath(path: string): (r: Option<string>)
    ensures r.None? <==> forall i :: 0 <= i <= |path| ==> !MatchesAt(path, i)
    ensures r.Some? ==> MatchesAt(path, |r.value|) && r.value == path[..|r.value|]
    ensures r.Some? ==> forall j :: |r.value| < j <= |path| ==> !MatchesAt(path, j)
  {
    var n := GreedyRun(path, 0);
    var r := BackOff(path, n);
    forall i | 0 <= i <= |path| ensures MatchesAt(path, i) <==> i <= n && MountAt(path, i) {
      SingleLinePrefix(path, n, i);
    }
    r
  }

  /** For a path on one line (as a location's pathname is), the result is None exactly when no `/lab` is followed by `/`, `?` or the end. */
  lemma BasePathOfSingleLine(path: string)
    requires SingleLine(path)
    ensures BasePath(path).None? <==> forall i :: 0 <= i <= |path| ==> !MountAt(path, i)
  {
    forall i | 0 <= i <= |path| ensures MatchesAt(path, i) <==> MountAt(path, i) {
      SingleLinePrefix(path, |path|, i);
    }
  }

  /** A result splits the path into the result, `/lab`, and a rest that is empty or starts with `/` or `?`. */
  lemma BasePathSplits(path: string, base: string)
    requires BasePath(path) == Some(base)
    ensures exists rest :: path == base + Mount + rest && (rest == [] || rest[0] == '/' || rest[0] == '?')
  {
    var rest := path[|base| + |Mount|..];
    assert path == path[..|base|] + path[|base|..|base| + |Mount|] + rest;
  }

  /** A qualifying `/lab` at `i` spells out its four characters. */
  lemma MountLetters(path: string, i: nat)
    requires MountAt(path, i)
    ensures path[i] == '/' && path[i + 1] == 'l' && path[i + 2] == 'a' && path[i + 3] == 'b'
  {
    assert path[i..i + |Mount|] == Mount;
    assert path[i] == path[i..i + |Mount|][0];
    assert path[i + 1] == path[i..i + |Mount|][1];
    assert path[i + 2] == path[i..i + |Mount|][2];
    assert path[i + 3] == path[i..i + |Mount|][3];
  }

  /** Prepending text shifts every qualifying position by its length. */
  lemma MountShift(prefix: string, tail: string, j: nat)
    ensures MountAt(prefix + tail, |prefix| + j) <==> MountAt(tail, j)
  {
    var path := prefix + tail;
    var p := |prefix|;
    if j + |Mount| <= |tail| {
      assert path[p + j..p + j + |Mount|] == tail[j..j + |Mount|];
      if j + |Mount| < |tail| { assert path[p + j + |Mount|] == tail[j + |Mount|]; }
    }
  }

  /** A tail without the letter `l` holds no qualifying `/lab`. */
  lemma NoMountWithoutL(tail: string)
    requires forall k :: 0 <= k < |tail| ==> tail[k] != 'l'
    ensures forall j :: 0 <= j <= |tail| ==> !MountAt(tail, j)
  {
    forall j | 0 <= j <= |tail| ensures !MountAt(tail, j) {
      if MountAt(tail, j) { MountLetters(tail, j); }
    }
  }

  /**
   * Round trip: a base on one line, followed by `/lab` and a tail that begins
   * at a segment boundary and holds no further qualifying `/lab`, yields that
   * base back.
   */
  lemma {:induction false} BasePathOfJoin(base: string, tail: string)
    requires SingleLine(base)
    requires BoundaryAt(tail, 0)
    requires forall j :: 0 <= j <= |tail| ==> !MountAt(tail, j)
    ensures BasePath(base + Mount + tail) == Some(base)
  {
    var path := base + Mount + tail;
    var m := |base| + |Mount|;
    assert path[..|base|] == base;
    assert path[|base|..m] == Mount;
    assert path == (base + Mount) + tail;
    if tail != [] { assert path[m] == tail[0]; }
    assert MatchesAt(path, |base|);
    forall j | |base| < j <= |path| ensures !MatchesAt(path, j) {
      if MountAt(path, j) {
        MountLetters(path, j);
        // `/` does not occur in `lab`, so no match starts inside the mount.
        if j >= m {
          MountShift(base + Mount, tail, j - m);
        }
      }
    }
    var r := BasePath(path);
    assert r.Some? && |r.value| == |base|;
  }

  /** The simplest round trip: the base of `base + "/lab"` is `base`. */
  lemma BasePathOfMountEnd(base: string)
    requires SingleLine(base)
    ensures BasePath(base + Mount) == Some(base)
  {
    BasePathOfJoin(base, []);
    assert base + Mount + [] == base + Mount;
  }

  /** The examples of the doc comment at src/index.ts:24-26. */
  lemma DocumentedExamples()
    ensures BasePath("/notebook/ns/nb/lab/tree") == Some("/notebook/ns/nb")
    ensures BasePath("/jupyter/lab") == Some("/jupyter")
    ensures BasePath("/lab") == Some("")
  {
    NoMountWithoutL("/tree");
    BasePathOfJoin("/notebook/ns/nb", "/tree");
    assert "/notebook/ns/nb" + Mount + "/tree" == "/notebook/ns/nb/lab/tree";
    BasePathOfMountEnd("/jupyter");
    assert "/jupyter" + Mount == "/jupyter/lab";
    BasePathOfMountEnd("");
    assert "" + Mount == "/lab";
  }

  /** Scans from position `i` for a qualifying `/lab`, comparing characters one by one. */
  predicate NoMountFrom(path: string, i: nat)
    decreases |path| - i
  {
    i >= |path| ||
    (!(i + 4 <= |path| && path[i] == '/' && path[i + 1] == 'l' && path[i + 2] == 'a' && path[i + 3] == 'b' &&
       BoundaryAt(path, i + 4)) &&
     NoMountFrom(path, i + 1))
  }

  /** A scan that finds nothing from `i` on means no position from `i` on qualifies. */
  lemma {:induction false} NoMountFromSound(path: string, i: nat)
    requires NoMountFrom(path, i)
    ensures forall j :: i <= j <= |path| ==> !MountAt(path, j)
    decreases |path| - i
  {
    if i < |path| {
      NoMountFromSound(path, i + 1);
      if MountAt(path, i) { MountLetters(path, i); }
    }
  }

  /** The lookahead in general: `/lab` followed by any other character does not end the base there. */
  lemma LongerSegmentRejected(base: string, rest: string)
    requires rest != [] && rest[0] != '/' && rest[0] != '?'
    ensures BasePath(base + Mount + rest) != Some(base)
  {
    var path := base + Mount + rest;
    assert path[|base| + |Mount|] == rest[0];
  }

  /** The lookahead keeps longer segments that start with `lab` from matching (src/index.ts:21-22). */
  lemma LongerSegmentsDoNotMatch()
    ensures BasePath("/laboratory").None?
    ensures BasePath("/label").None?
    ensures BasePath("/notebook/label/tree").None?
  {
    NoMountFromSound("/laboratory", 0);
    NoMountFromSound("/label", 0);
    var nested := "/notebook/label/tree";
    assert NoMountFrom(nested, 15);
    assert NoMountFrom(nested, 9);
    assert NoMountFrom(nested, 4);
    assert NoMountFrom(nested, 0);
    NoMountFromSound(nested, 0);
  }

  /** Because `.*` is greedy, the last qualifying `/lab` wins. */
  lemma LastMountWins()
    ensures BasePath("/a/lab/b/lab") == Some("/a/lab/b")
  {
    BasePathOfMountEnd("/a/lab/b");
    assert "/a/lab/b" + Mount == "/a/lab/b/lab";
  }

  /** A query marker after `/lab` also ends the mount segment. */
  lemma QueryEndsMount()
    ensures BasePath("/user/lab?reset") == Some("/user")
  {
    NoMountWithoutL("?reset");
    BasePathOfJoin("/user", "?reset");
    assert "/user" + Mount + "?reset" == "/user/lab?reset";
  }

  /** `.` stops at a line terminator, so a `/lab` on a later line is not found. */
  lemma LineTerminatorStopsMatch()
    ensures BasePath("/x\n/lab").None?
  {
    var path := "/x\n/lab";
    assert IsLineTerminator(path[2]);
    forall i | 0 <= i <= |path| ensures !MatchesAt(path, i) {
      if i > 2 { assert path[..i][2] == path[2]; }
    }
  }
}
