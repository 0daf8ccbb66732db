/**
  Comparing texts: the similarity score, computed in one row of a table, and the single hunk that turns
  one text into another.
 */
module TextDiff {
  import opened Prelude

  // ----- longest common subsequence ------------------------------------------------------------------------------

  /** `u` can be had from `s` by leaving out characters. */
  predicate Subsequence(u: string, s: string) {
    u == "" || (s != "" && ((Last(u) == Last(s) && Subsequence(Front(u), Front(s))) || Subsequence(u, Front(s))))
  }

  ghost predicate Common(u: string, a: string, b: string) {
    Subsequence(u, a) && Subsequence(u, b)
  }

  /** `n` is the length of a longest common subsequence. */
  ghost predicate LongestCommon(a: string, b: string, n: nat) {
    && (exists u :: Common(u, a, b) && |u| == n)
    && (forall u :: Common(u, a, b) ==> |u| <= n)
  }

  /** The table that the row loop walks through. */
  function Table(a: string, b: string): nat
    decreases |a| + |b|
  {
    if a == "" || b == "" then 0
    else if Last(a) == Last(b) then Table(Front(a), Front(b)) + 1
    else
      var up, left := Table(Front(a), b), Table(a, Front(b));
      if left > up then left else up
  }

  lemma {:induction false} SubsequenceFront(u: string, s: string)
    requires u != "" && Subsequence(u, s)
    ensures s != "" && Subsequence(Front(u), Front(s)) && Subsequence(Front(u), s)
    decreases |s|
  {
    if !(Last(u) == Last(s) && Subsequence(Front(u), Front(s))) {
      SubsequenceFront(u, Front(s));
    }
  }

  lemma {:induction false} TableBounds(a: string, b: string, u: string)
    requires Common(u, a, b)
    ensures |u| <= Table(a, b)
    decreases |a| + |b|
  {
    if u != "" {
      SubsequenceFront(u, a);
      SubsequenceFront(u, b);
      if Last(a) == Last(b) {
        TableBounds(Front(a), Front(b), Front(u));
      } else if Last(u) != Last(a) {
        TableBounds(Front(a), b, u);
      } else {
        TableBounds(a, Front(b), u);
      }
    }
  }

  lemma {:induction false} TableWitness(a: string, b: string) returns (u: string)
    ensures Common(u, a, b) && |u| == Table(a, b)
    decreases |a| + |b|
  {
    if a == "" || b == "" {
      u := "";
    } else if Last(a) == Last(b) {
      var v := TableWitness(Front(a), Front(b));
      u := v + [Last(a)];
      assert Front(u) == v;
    } else if Table(a, Front(b)) > Table(Front(a), b) {
      u := TableWitness(a, Front(b));
    } else {
      u := TableWitness(Front(a), b);
    }
  }

  lemma TableIsLongest(a: string, b: string)
    ensures LongestCommon(a, b, Table(a, b))
  {
    var u := TableWitness(a, b);
    forall v | Common(v, a, b) ensures |v| <= Table(a, b) {
      TableBounds(a, b, v);
    }
  }

  /** There is only one such length, and it does not depend on which text comes first. */
  lemma LongestIsUnique(a: string, b: string, n: nat, m: nat)
    requires LongestCommon(a, b, n) && LongestCommon(b, a, m)
    ensures n == m
  {
    var u :| Common(u, a, b) && |u| == n;
    var v :| Common(v, b, a) && |v| == m;
    assert Common(u, b, a) && Common(v, a, b);
  }

  lemma {:induction false} SubsequenceLength(u: string, s: string)
    requires Subsequence(u, s)
    ensures |u| <= |s| && (|u| == |s| ==> u == s)
    decreases |s|
  {
    if u != "" {
      if Last(u) == Last(s) && Subsequence(Front(u), Front(s)) {
        SubsequenceLength(Front(u), Front(s));
        assert u == Front(u) + [Last(u)] && s == Front(s) + [Last(s)];
      } else {
        SubsequenceLength(u, Front(s));
      }
    }
  }

  lemma {:induction false} SubsequenceSelf(s: string)
    ensures Subsequence(s, s)
  {
    if s != "" {
      SubsequenceSelf(Front(s));
    }
  }

  // ----- the score ------------------------------------------------------------------------------------------------

  /** Texts whose table would be larger than this are not compared. */
  const MaxCells := 4 * 1024 * 4 * 1024

  /** Twice the length of a longest common subsequence over the two lengths together. */
  function Score(a: string, b: string): real {
    if |a| + |b| == 0 then 1.0
    else if |a| * |b| > MaxCells then 0.0
    else 2.0 * Table(a, b) as real / (|a| + |b|) as real
  }

  /** Twice the length `n` of a longest common subsequence, shared out over the characters of both texts. */
  ghost predicate SharesOut(score: real, a: string, b: string, n: nat) {
    score * (|a| + |b|) as real == 2.0 * n as real
  }

  /** The similarity of two texts, by what it has to be. */
  method Similarity(a: string, b: string) returns (score: real)
    ensures score == Score(a, b)
    ensures a == "" && b == "" ==> score == 1.0
    ensures |a| * |b| > 16777216 ==> score == 0.0
    ensures |a| + |b| > 0 && |a| * |b| <= 16777216 ==> forall n: nat :: LongestCommon(a, b, n) ==> SharesOut(score, a, b, n)
  {
    ScoreMeans(a, b);
    hide LongestCommon, SharesOut, Table;
    if |a| + |b| == 0 {
      return 1.0;
    }
    if |a| * |b| > MaxCells {
      return 0.0;
    }
    var length := RowLoop(a, b);
    return 2.0 * length as real / (|a| + |b|) as real;
  }

  /** One row of the table: `row[j]` is the entry for the text so far and the first `j` characters of `b`. */
  method RowLoop(a: string, b: string) returns (length: nat)
    ensures length == Table(a, b)
  {
    var row := new nat[|b| + 1](_ => 0);
    for i := 0 to |a|
      invariant forall j :: 0 <= j <= |b| ==> row[j] == Table(a[..i], b[..j])
    {
      NextRow(a, b, i, row);
    }
    assert a[..|a|] == a && b[..|b|] == b;
    return row[|b|];
  }

  /** The inner loop: overwrite the row in place, keeping the entry to the upper left. */
  method NextRow(a: string, b: string, i: nat, row: array<nat>)
    requires i < |a| && row.Length == |b| + 1
    requires forall j :: 0 <= j <= |b| ==> row[j] == Table(a[..i], b[..j])
    modifies row
    ensures forall j :: 0 <= j <= |b| ==> row[j] == Table(a[..i + 1], b[..j])
  {
    var prior := 0;
    for j := 0 to |b|
      invariant prior == Table(a[..i], b[..j])
      invariant forall k :: 0 <= k <= j ==> row[k] == Table(a[..i + 1], b[..k])
      invariant forall k :: j < k <= |b| ==> row[k] == Table(a[..i], b[..k])
    {
      Cell(a, b, i, j);
      var saved := row[j + 1];
      if a[i] == b[j] {
        row[j + 1] := prior + 1;
      } else if row[j] > row[j + 1] {
        row[j + 1] := row[j];
      }
      prior := saved;
    }
  }

  lemma Cell(a: string, b: string, i: nat, j: nat)
    requires i < |a| && j < |b|
    ensures Table(a[..i + 1], b[..j + 1]) ==
      if a[i] == b[j] then Table(a[..i], b[..j]) + 1
      else if Table(a[..i + 1], b[..j]) > Table(a[..i], b[..j + 1]) then Table(a[..i + 1], b[..j])
      else Table(a[..i], b[..j + 1])
  {
    assert Front(a[..i + 1]) == a[..i] && Front(b[..j + 1]) == b[..j];
  }

  lemma LongestIsTable(a: string, b: string, n: nat)
    requires LongestCommon(a, b, n)
    ensures n == Table(a, b)
  {
    TableIsLongest(a, b);
    TableIsLongest(b, a);
    hide LongestCommon, Table;
    LongestIsUnique(a, b, n, Table(b, a));
    LongestIsUnique(a, b, Table(a, b), Table(b, a));
  }

  lemma ScoreMeans(a: string, b: string)
    ensures |a| + |b| > 0 && |a| * |b| <= 16777216 ==> forall n: nat :: LongestCommon(a, b, n) ==> SharesOut(Score(a, b), a, b, n)
  {
    hide LongestCommon, Table;
    if |a| + |b| > 0 && |a| * |b| <= 16777216 {
      var length, total := Table(a, b), |a| + |b|;
      Divided(2 * length, total);
      assert 2.0 * length as real == (2 * length) as real;
      assert SharesOut(Score(a, b), a, b, length);
      hide SharesOut, Score;
      forall n: nat | LongestCommon(a, b, n) ensures SharesOut(Score(a, b), a, b, n) {
        LongestIsTable(a, b, n);
      }
    }
  }

  lemma Divided(n: nat, total: nat)
    requires total > 0
    ensures n as real / total as real * total as real == n as real
  {
  }

  lemma ScoreSymmetric(a: string, b: string)
    ensures Score(a, b) == Score(b, a)
  {
    TableIsLongest(a, b);
    TableIsLongest(b, a);
    LongestIsUnique(a, b, Table(a, b), Table(b, a));
    assert |a| * |b| == |b| * |a|;
  }

  lemma TableAtMost(a: string, b: string)
    ensures Table(a, b) <= |a| && Table(a, b) <= |b|
    ensures Table(a, b) == |a| == |b| <==> a == b
  {
    var u := TableWitness(a, b);
    SubsequenceLength(u, a);
    SubsequenceLength(u, b);
    if a == b {
      SubsequenceSelf(a);
      TableBounds(a, a, a);
    }
  }

  /** The score lies between 0 and 1, and is 1 exactly for equal texts that are small enough to compare. */
  lemma ScoreRange(a: string, b: string)
    ensures 0.0 <= Score(a, b) <= 1.0
    ensures Score(a, b) == 1.0 <==> a == b && |a| * |b| <= MaxCells
  {
    TableAtMost(a, b);
    var n, total := Table(a, b), |a| + |b|;
    if total > 0 && |a| * |b| <= MaxCells {
      Ratio(2 * n, total);
      assert 2.0 * n as real == (2 * n) as real;
    }
  }

  lemma Ratio(n: nat, total: nat)
    requires n <= total && total > 0
    ensures 0.0 <= n as real / total as real <= 1.0
    ensures n as real / total as real == 1.0 <==> n == total
  {
    var q := n as real / total as real;
    assert q * total as real == n as real;
  }

  // ----- the hunk -------------------------------------------------------------------------------------------------

  /** At line `start`, counting from 1, the `removed` lines are replaced by the `added` ones. */
  datatype Hunk = Hunk(start: nat, removed: seq<string>, added: seq<string>)

  /** Replace the lines of the hunk, when they are there. */
  function Patched(lines: seq<string>, h: Hunk): Option<seq<string>> {
    if h.start >= 1 && h.start - 1 + |h.removed| <= |lines| && lines[h.start - 1..h.start - 1 + |h.removed|] == h.removed then
      Some(lines[..h.start - 1] + h.added + lines[h.start - 1 + |h.removed|..])
    else None
  }

  function Reversed(h: Hunk): Hunk {
    Hunk(h.start, h.added, h.removed)
  }

  /** Cut off the common lines at the front, then those at the back. */
  method UnifiedDiff(before: seq<string>, after: seq<string>) returns (h: Hunk)
    ensures Patched(before, h) == Some(after) && Patched(after, Reversed(h)) == Some(before)
    ensures forall other :: Patched(before, other) == Some(after) ==> |h.removed| <= |other.removed| && |h.added| <= |other.added|
  {
    hide Patched;
    var prefix := 0;
    while prefix < |before| && prefix < |after| && before[prefix] == after[prefix]
      invariant prefix <= |before| && prefix <= |after|
      invariant before[..prefix] == after[..prefix]
    {
      prefix := prefix + 1;
    }
    var beforeEnd, afterEnd := |before|, |after|;
    while beforeEnd > prefix && afterEnd > prefix && before[beforeEnd - 1] == after[afterEnd - 1]
      invariant prefix <= beforeEnd <= |before| && prefix <= afterEnd <= |after|
      invariant |before| - beforeEnd == |after| - afterEnd
      invariant before[beforeEnd..] == after[afterEnd..]
    {
      assert before[beforeEnd - 1..] == [before[beforeEnd - 1]] + before[beforeEnd..];
      assert after[afterEnd - 1..] == [after[afterEnd - 1]] + after[afterEnd..];
      beforeEnd, afterEnd := beforeEnd - 1, afterEnd - 1;
    }
    h := Hunk(prefix + 1, before[prefix..beforeEnd], after[prefix..afterEnd]);
    HunkApplies(before, after, prefix, beforeEnd, afterEnd);
    HunkApplies(after, before, prefix, afterEnd, beforeEnd);
    forall other | Patched(before, other) == Some(after)
      ensures |h.removed| <= |other.removed| && |h.added| <= |other.added|
    {
      Shortest(before, after, prefix, beforeEnd, afterEnd, other);
    }
  }

  lemma HunkApplies(before: seq<string>, after: seq<string>, prefix: nat, beforeEnd: nat, afterEnd: nat)
    requires prefix <= beforeEnd <= |before| && prefix <= afterEnd <= |after|
    requires before[..prefix] == after[..prefix] && before[beforeEnd..] == after[afterEnd..]
    ensures Patched(before, Hunk(prefix + 1, before[prefix..beforeEnd], after[prefix..afterEnd])) == Some(after)
  {
    assert before[..prefix] + after[prefix..afterEnd] + before[beforeEnd..] == after;
  }

  /** No hunk that gives the same lines is shorter, since it too leaves a common front and a common back. */
  lemma Shortest(before: seq<string>, after: seq<string>, prefix: nat, beforeEnd: nat, afterEnd: nat, other: Hunk)
    requires prefix <= beforeEnd <= |before| && prefix <= afterEnd <= |after| && |before| - beforeEnd == |after| - afterEnd
    requires prefix < |before| && prefix < |after| ==> before[prefix] != after[prefix]
    requires beforeEnd > prefix && afterEnd > prefix ==> before[beforeEnd - 1] != after[afterEnd - 1]
    requires Patched(before, other) == Some(after)
    ensures beforeEnd - prefix <= |other.removed| && afterEnd - prefix <= |other.added|
  {
    LeavesEnds(before, after, other);
  }

  /** What a hunk leaves in front of it and behind it is common to both texts. */
  lemma LeavesEnds(before: seq<string>, after: seq<string>, h: Hunk)
    requires Patched(before, h) == Some(after)
    ensures var front, back := h.start - 1, |before| - (h.start - 1) - |h.removed|;
      && |after| == front + |h.added| + back
      && (forall i :: 0 <= i < front ==> before[i] == after[i])
      && (forall i :: |before| - back <= i < |before| ==> before[i] == after[i - |before| + |after|])
  {
    var front, back := h.start - 1, |before| - (h.start - 1) - |h.removed|;
    forall i | |before| - back <= i < |before| ensures before[i] == after[i - |before| + |after|] {
      assert after[i - |before| + |after|] == before[front + |h.removed|..][i - |before| + back];
    }
  }

  /** The hunk between two texts, applied to the lines of the old one, gives the new one. */
  method DiffTexts(before: string, after: string) returns (h: Hunk)
    ensures Patched(Split(before, '\n'), h).Some? && Join(Patched(Split(before, '\n'), h).value, '\n') == after
    ensures Patched(Split(after, '\n'), Reversed(h)).Some? && Join(Patched(Split(after, '\n'), Reversed(h)).value, '\n') == before
  {
    h := UnifiedDiff(Split(before, '\n'), Split(after, '\n'));
    JoinSplit(before, '\n');
    JoinSplit(after, '\n');
  }
}
