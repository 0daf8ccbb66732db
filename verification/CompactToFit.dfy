/**
  Compacting until the prompt fits.  Each accepted compaction makes a lexicographic measure smaller:
  the tool results that can still be elided, then the number of messages, then their tokens.  So
  compact-and-retry cannot go on for ever.
 */
module CompactToFit {
  import opened Prelude
  import opened Transcript

  /** Token counts are a fixed function of the content. */
  ghost predicate Counted(env: Env, messages: seq<Message>) {
    forall i :: 0 <= i < |messages| ==> messages[i].tokens == env.count(messages[i].content)
  }

  /** The number of tool results that may still be elided. */
  function OpenResults(env: Env, messages: seq<Message>): nat {
    if messages == [] then 0
    else OpenResults(env, messages[1..]) + (if Eligible(env, messages[0]) then 1 else 0)
  }

  datatype Measure = Measure(open: nat, count: nat, tokens: int)

  function MeasureOf(env: Env, messages: seq<Message>): Measure {
    Measure(OpenResults(env, messages), |messages|, TokenSum(messages))
  }

  predicate Less(a: Measure, b: Measure) {
    || a.open < b.open
    || (a.open == b.open && a.count < b.count)
    || (a.open == b.open && a.count == b.count && a.tokens < b.tokens)
  }

  /** The first of the offered summaries that Summarize accepts. */
  function SummarizeFirst(messages: seq<Message>, summaries: seq<Message>): (r: Result)
    ensures !r.changed ==> r.messages == messages
  {
    if summaries == [] then Result(messages, [], false)
    else
      var tried := Summarize(messages, summaries[0]);
      if tried.changed then tried
      else
        var rest := SummarizeFirst(messages, summaries[1..]);
        Result(rest.messages, tried.events + rest.events, rest.changed)
  }

  /**
    compactToFit: elide old results, and when the prompt still does not fit, summarize.  `overflow` is
    the outcome of the measurement in between, `summaries` what the models offered.
   */
  function Compact(env: Env, messages: seq<Message>, used: int, target: int, overflow: bool, summaries: seq<Message>): Result {
    var (elided, _) := ElideOld(env, messages, used, target);
    if !overflow then elided
    else
      var summarized := SummarizeFirst(elided.messages, summaries);
      Result(summarized.messages, elided.events + summarized.events, elided.changed || summarized.changed)
  }

  // ----- eliding ------------------------------------------------------------------------------

  lemma {:induction false} OpenConcat(env: Env, a: seq<Message>, b: seq<Message>)
    ensures OpenResults(env, a + b) == OpenResults(env, a) + OpenResults(env, b)
  {
    if a == [] {
      assert a + b == b;
    } else {
      assert (a + b)[1..] == a[1..] + b;
      OpenConcat(env, a[1..], b);
    }
  }

  lemma {:induction false} TokensConcat(a: seq<Message>, b: seq<Message>)
    ensures TokenSum(a + b) == TokenSum(a) + TokenSum(b)
  {
    if a == [] {
      assert a + b == b;
    } else {
      assert (a + b)[1..] == a[1..] + b;
      TokensConcat(a[1..], b);
    }
  }

  lemma ElideOneOpens(env: Env, messages: seq<Message>, i: nat, m: Message)
    requires i < |messages| && Eligible(env, messages[i]) && m.elided
    ensures OpenResults(env, messages[i := m]) == OpenResults(env, messages) - 1
  {
    var a, b := messages[..i], messages[i + 1..];
    assert messages == a + ([messages[i]] + b) && messages[i := m] == a + ([m] + b);
    OpenConcat(env, a, [messages[i]] + b);
    OpenConcat(env, a, [m] + b);
    OpenConcat(env, [messages[i]], b);
    OpenConcat(env, [m], b);
  }

  /** Every affected message was open before and is closed now; counts stay a function of content. */
  lemma {:induction false} ElideFromDecreases(env: Env, before: seq<Message>, st: Edit, used: int, target: int, index: nat)
    requires index <= |st.messages| == |before|
    ensures var r := ElideFrom(env, before, st, used, target, index).0;
      && |r.affected| >= |st.affected|
      && OpenResults(env, r.messages) == OpenResults(env, st.messages) - (|r.affected| - |st.affected|)
      && (Counted(env, st.messages) ==> Counted(env, r.messages))
    decreases |before| - index
  {
    hide CallFor, Recent, Eligible, OpenResults;
    if index < |before| && used > target {
      if Recent(before, index) || !Eligible(env, st.messages[index]) {
        ElideFromDecreases(env, before, st, used, target, index + 1);
      } else {
        var m := st.messages[index];
        var updated := Elide(env, m, ArgumentsOr(CallFor(st.messages, m.callId)));
        ElideOneOpens(env, st.messages, index, updated);
        ElideFromDecreases(env, before, Rewrite(st, index, updated), used - Max(0, m.tokens - updated.tokens), target, index + 1);
      }
    }
  }

  lemma ElideDecreases(env: Env, messages: seq<Message>, used: int, target: int)
    ensures var r := ElideOld(env, messages, used, target).0;
      && |r.messages| == |messages|
      && (r.changed ==> OpenResults(env, r.messages) < OpenResults(env, messages))
      && (!r.changed ==> r.messages == messages)
      && (Counted(env, messages) ==> Counted(env, r.messages))
  {
    ElideFromDecreases(env, messages, Edit(messages, [], []), used, target, 0);
  }

  // ----- summarizing -----------------------------------------------------------------------------

  lemma SummarizeDecreases(env: Env, messages: seq<Message>, summary: Message)
    requires summary.category == Summary && summary.tokens == env.count(summary.content)
    ensures var r := Summarize(messages, summary);
      && (r.changed ==> Less(MeasureOf(env, r.messages), MeasureOf(env, messages)))
      && (Counted(env, messages) ==> Counted(env, r.messages))
  {
    hide TokenSum;
    if Summarize(messages, summary).changed {
      var n := |messages|;
      var a, span, b := messages[..1], messages[1..n - 6], messages[n - 6..];
      assert messages == a + span + b && Summarized(messages, summary) == a + [summary] + b;
      assert OpenResults(env, [summary]) == 0;
      OpenSwap(env, a, span, [summary], b);
    }
  }

  lemma OpenSwap(env: Env, a: seq<Message>, x: seq<Message>, y: seq<Message>, b: seq<Message>)
    requires OpenResults(env, y) == 0
    ensures OpenResults(env, a + y + b) <= OpenResults(env, a + x + b)
  {
    OpenConcat(env, a + x, b);
    OpenConcat(env, a, x);
    OpenConcat(env, a + y, b);
    OpenConcat(env, a, y);
  }

  lemma {:induction false} SummarizeFirstDecreases(env: Env, messages: seq<Message>, summaries: seq<Message>)
    requires forall i :: 0 <= i < |summaries| ==> summaries[i].category == Summary && summaries[i].tokens == env.count(summaries[i].content)
    ensures var r := SummarizeFirst(messages, summaries);
      && (r.changed ==> Less(MeasureOf(env, r.messages), MeasureOf(env, messages)))
      && (Counted(env, messages) ==> Counted(env, r.messages))
  {
    if summaries != [] {
      SummarizeDecreases(env, messages, summaries[0]);
      SummarizeFirstDecreases(env, messages, summaries[1..]);
    }
  }

  // ----- what compaction does --------------------------------------------------------------------------

  /** A summary saves tokens: there is something to summarize, and it is worth more than the summary. */
  predicate Saves(messages: seq<Message>, summary: Message) {
    |messages| > 7 && summary.tokens < TokenSum(messages[1..|messages| - 6])
  }

  /** A summary is accepted exactly when it saves tokens; then the first message, the summary and the last six remain. */
  lemma SummarizeMeans(messages: seq<Message>, summary: Message)
    ensures var r := Summarize(messages, summary); var n := |messages|;
      && (r.changed <==> Saves(messages, summary))
      && (r.changed ==> r.messages == [messages[0], summary] + messages[n - 6..])
      && (!r.changed ==> r.messages == messages)
      && (!r.changed ==> r.events == if n > 7 then [CompactionSummary(false)] else [])
      && (r.changed ==>
            && |r.events| == 3 && r.events[0] == CompactionSummary(true) && r.events[1].Compaction? && r.events[1].summarize
            && r.events[2] == MessageAppended(summary) && |r.events[1].affected| == n - 7
            && forall i :: 1 <= i < n - 6 ==> r.events[1].affected[i - 1] == messages[i].id)
  {
    if |messages| > 7 {
      var n := |messages|;
      var a, span, b := messages[..1], messages[1..n - 6], messages[n - 6..];
      assert messages == a + span + b && Summarized(messages, summary) == a + [summary] + b;
      TokensConcat(a + span, b);
      TokensConcat(a, span);
      TokensConcat(a + [summary], b);
      TokensConcat(a, [summary]);
      assert TokenSum([summary]) == summary.tokens by { assert [summary][1..] == []; }
    }
  }

  /** `k` is the first offered summary that saves tokens, or none does. */
  ghost predicate FirstSaving(messages: seq<Message>, summaries: seq<Message>, k: Option<nat>) {
    match k
    case Some(i) => i < |summaries| && Saves(messages, summaries[i]) && forall j :: 0 <= j < i ==> !Saves(messages, summaries[j])
    case None => forall j :: 0 <= j < |summaries| ==> !Saves(messages, summaries[j])
  }

  lemma {:induction false} SummarizeFirstMeans(messages: seq<Message>, summaries: seq<Message>) returns (k: Option<nat>)
    ensures FirstSaving(messages, summaries, k)
    ensures var r := SummarizeFirst(messages, summaries);
      && (r.changed <==> k.Some?)
      && r.messages == if k.Some? then [messages[0], summaries[k.value]] + messages[|messages| - 6..] else messages
  {
    hide Summarize, Saves;
    k := None;
    if summaries != [] {
      SummarizeMeans(messages, summaries[0]);
      if Saves(messages, summaries[0]) {
        k := Some(0);
        assert |messages| > 7 by { LongEnough(messages, summaries[0]); }
      } else {
        var rest := SummarizeFirstMeans(messages, summaries[1..]);
        k := if rest.Some? then Some(rest.value + 1) else None;
        assert forall j :: 0 <= j < |summaries[1..]| ==> summaries[1..][j] == summaries[j + 1];
      }
    }
  }

  lemma LongEnough(messages: seq<Message>, summary: Message)
    requires Saves(messages, summary)
    ensures |messages| > 7
  {
  }

  /**
    Compact-to-fit elides old results; if the prompt still overflows then, the first offered summary that
    saves tokens replaces all but the first and the last six of what is left.  It reports a change exactly
    when one of the two happened.
   */
  lemma CompactMeans(env: Env, messages: seq<Message>, used: int, target: int, overflow: bool, summaries: seq<Message>) returns (k: Option<nat>)
    ensures var r := Compact(env, messages, used, target, overflow, summaries); var elided := ElideOld(env, messages, used, target).0;
      && FirstSaving(elided.messages, summaries, k)
      && (r.changed <==> elided.changed || (overflow && k.Some?))
      && r.messages == (if overflow && k.Some? then [elided.messages[0], summaries[k.value]] + elided.messages[|elided.messages| - 6..] else elided.messages)
  {
    hide ElideOld, SummarizeFirst, FirstSaving;
    k := SummarizeFirstMeans(ElideOld(env, messages, used, target).0.messages, summaries);
    assert k.Some? ==> k.value < |summaries| && |ElideOld(env, messages, used, target).0.messages| > 7 by {
      FirstSavingFits(ElideOld(env, messages, used, target).0.messages, summaries, k);
    }
  }

  lemma FirstSavingFits(messages: seq<Message>, summaries: seq<Message>, k: Option<nat>)
    requires FirstSaving(messages, summaries, k)
    ensures k.Some? ==> k.value < |summaries| && |messages| > 7
  {
  }

  // ----- the retry ----------------------------------------------------------------------------------

  ghost predicate Summaries(env: Env, summaries: seq<Message>) {
    forall i :: 0 <= i < |summaries| ==> summaries[i].category == Summary && summaries[i].tokens == env.count(summaries[i].content)
  }

  /** Each compaction that reports a change makes the measure strictly smaller. */
  lemma CompactDecreases(env: Env, messages: seq<Message>, used: int, target: int, overflow: bool, summaries: seq<Message>)
    requires Summaries(env, summaries)
    ensures var r := Compact(env, messages, used, target, overflow, summaries);
      && (r.changed ==> Less(MeasureOf(env, r.messages), MeasureOf(env, messages)))
      && (Counted(env, messages) ==> Counted(env, r.messages))
  {
    ElideDecreases(env, messages, used, target);
    SummarizeFirstDecreases(env, ElideOld(env, messages, used, target).0.messages, summaries);
  }

  /** `b` is what one compact-to-fit that reported a change can make of `a`. */
  ghost predicate Retries(env: Env, a: seq<Message>, b: seq<Message>) {
    exists used, target, overflow, summaries :: CanBecome(env, a, b, used, target, overflow, summaries)
  }

  ghost predicate CanBecome(env: Env, a: seq<Message>, b: seq<Message>, used: int, target: int, overflow: bool, summaries: seq<Message>) {
    && Summaries(env, summaries)
    && Compact(env, a, used, target, overflow, summaries).changed
    && Compact(env, a, used, target, overflow, summaries).messages == b
  }

  lemma {:induction false} TokensNonNegative(env: Env, messages: seq<Message>)
    requires Counted(env, messages)
    ensures TokenSum(messages) >= 0
  {
    if messages != [] {
      TokensNonNegative(env, messages[1..]);
    }
  }

  /** Follow the retries from `i`: the measure falls at each one, so they stop at some point. */
  lemma {:induction false} FindEnd(env: Env, lists: nat -> seq<Message>, i: nat) returns (end: nat)
    requires Counted(env, lists(i))
    ensures !Retries(env, lists(end), lists(end + 1))
    decreases OpenResults(env, lists(i)), |lists(i)|, TokenSum(lists(i))
  {
    if Retries(env, lists(i), lists(i + 1)) {
      var used, target, overflow, summaries :| CanBecome(env, lists(i), lists(i + 1), used, target, overflow, summaries);
      CompactDecreases(env, lists(i), used, target, overflow, summaries);
      TokensNonNegative(env, lists(i));
      TokensNonNegative(env, lists(i + 1));
      end := FindEnd(env, lists, i + 1);
    } else {
      end := i;
    }
  }

  /**
    When token counts are a fixed function of content and nothing else touches the list, compact-and-
    retry ends: in every infinite sequence of message lists there is a point that no accepted
    compaction leads on from.
   */
  lemma RetryEnds(env: Env, lists: nat -> seq<Message>)
    requires Counted(env, lists(0))
    ensures exists i: nat :: !Retries(env, lists(i), lists(i + 1))
  {
    var end := FindEnd(env, lists, 0);
  }
}
