/**
  Glob patterns with `**`.  The matcher remembers the positions it has been at and answers "no" on a
  second visit; it decides the meaning of the pattern all the same.
 */
module Glob {
  import opened Prelude

  /** How one pattern segment matches one path segment; a malformed segment matches nothing. */
  type SegmentMatch = (string, string) -> bool

  const AnyDepth := "**"

  /**
    What a pattern means: `**` stands for any number of path segments, none included, and every other
    segment for exactly one.
   */
  ghost predicate Denotes(segment: SegmentMatch, pattern: seq<string>, path: seq<string>)
    decreases |pattern|
  {
    if pattern == [] then path == []
    else if pattern[0] == AnyDepth then exists k :: 0 <= k <= |path| && Denotes(segment, pattern[1..], path[k..])
    else path != [] && segment(pattern[0], path[0]) && Denotes(segment, pattern[1..], path[1..])
  }

  ghost predicate From(segment: SegmentMatch, pattern: seq<string>, path: seq<string>, i: nat, j: nat) {
    i <= |pattern| && j <= |path| && Denotes(segment, pattern[i..], path[j..])
  }

  /** `**` either stands for nothing here or for one more segment. */
  lemma AnyDepthStep(segment: SegmentMatch, pattern: seq<string>, path: seq<string>, i: nat, j: nat)
    requires i < |pattern| && j <= |path| && pattern[i] == AnyDepth
    ensures From(segment, pattern, path, i, j)
      <==> From(segment, pattern, path, i + 1, j) || (j < |path| && From(segment, pattern, path, i, j + 1))
  {
    var rest, here := pattern[i..][1..], path[j..];
    assert rest == pattern[i + 1..] && here[0..] == here;
    if j < |path| {
      var next := path[j + 1..];
      assert forall k :: 0 <= k <= |next| ==> next[k..] == here[k + 1..];
      if From(segment, pattern, path, i, j) {
        var k :| 0 <= k <= |here| && Denotes(segment, rest, here[k..]);
        if k > 0 {
          assert next[k - 1..] == here[k..];
        }
      }
      if From(segment, pattern, path, i, j + 1) {
        var k :| 0 <= k <= |next| && Denotes(segment, rest, next[k..]);
        assert Denotes(segment, rest, here[k + 1..]);
      }
    } else {
      assert forall k :: 0 <= k <= |here| ==> here[k..] == here;
    }
  }

  lemma SegmentStep(segment: SegmentMatch, pattern: seq<string>, path: seq<string>, i: nat, j: nat)
    requires i < |pattern| && j <= |path| && pattern[i] != AnyDepth
    ensures From(segment, pattern, path, i, j)
      <==> j < |path| && segment(pattern[i], path[j]) && From(segment, pattern, path, i + 1, j + 1)
  {
    assert pattern[i..][1..] == pattern[i + 1..];
    if j < |path| {
      assert path[j..][1..] == path[j + 1..];
    }
  }

  /** A remembered position is one from which there is no match, or one the search is still in the middle of. */
  ghost predicate Remembered(segment: SegmentMatch, pattern: seq<string>, path: seq<string>, seen: set<(nat, nat)>, depth: nat) {
    forall p :: p in seen ==> !From(segment, pattern, path, p.0, p.1) || p.0 + p.1 < depth
  }

  /** The recursive search.  What it has newly remembered when it fails are positions without a match. */
  method Search(segment: SegmentMatch, pattern: seq<string>, path: seq<string>, i: nat, j: nat, seen: set<(nat, nat)>)
    returns (found: bool, now: set<(nat, nat)>)
    requires i <= |pattern| && j <= |path| && Remembered(segment, pattern, path, seen, i + j)
    ensures found <==> From(segment, pattern, path, i, j)
    ensures !found ==> seen <= now && forall p :: p in now && p !in seen ==> !From(segment, pattern, path, p.0, p.1)
    decreases |pattern| - i + |path| - j
  {
    hide From;
    if (i, j) in seen {
      return false, seen;
    }
    now := seen + {(i, j)};
    if i == |pattern| {
      assert From(segment, pattern, path, i, j) <==> j == |path| by { EndOfPattern(segment, pattern, path, j); }
      return j == |path|, now;
    }
    if pattern[i] == AnyDepth {
      AnyDepthStep(segment, pattern, path, i, j);
      found, now := Search(segment, pattern, path, i + 1, j, now);
      if !found && j < |path| {
        found, now := Search(segment, pattern, path, i, j + 1, now);
      }
      return;
    }
    SegmentStep(segment, pattern, path, i, j);
    if j == |path| {
      return false, now;
    }
    if !segment(pattern[i], path[j]) {
      return false, now;
    }
    found, now := Search(segment, pattern, path, i + 1, j + 1, now);
  }

  lemma EndOfPattern(segment: SegmentMatch, pattern: seq<string>, path: seq<string>, j: nat)
    requires j <= |path|
    ensures From(segment, pattern, path, |pattern|, j) <==> j == |path|
  {
  }

  /** A pattern without a slash is matched against the file name, any other against the whole relative path. */
  method GlobMatches(segment: SegmentMatch, pattern: string, relative: string, name: string) returns (matched: bool)
    ensures matched <==>
      if '/' in pattern then Denotes(segment, Split(pattern, '/'), Split(relative, '/')) else segment(pattern, name)
  {
    if '/' !in pattern {
      return segment(pattern, name);
    }
    var parts, path := Split(pattern, '/'), Split(relative, '/');
    var now;
    matched, now := Search(segment, parts, path, 0, 0, {});
    assert parts[0..] == parts && path[0..] == path;
  }
}
