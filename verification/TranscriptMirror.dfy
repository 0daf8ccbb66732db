/**
  The projected message list equals the live one after every sequence of list operations, up to the
  fields that compaction does not publish (token counts, settled tool calls and settled reasoning).
 */
module TranscriptMirror {
  import opened Prelude
  import opened Transcript

  /**
    A message without the fields that are not mirrored: its token count, and the calls and reasoning of
    an elided message that is no tool result, which settling removes from the live list only.
   */
  function Face(m: Message): Message {
    if m.elided && m.role != Tool then m.(tokens := 0, calls := [], reasoning := "") else m.(tokens := 0)
  }

  lemma FaceSame(p: Message, was: Message, e: Event)
    requires Face(p) == Face(was) && e.MessageUpdated? && e.elided != Some(false)
    ensures p.id == was.id && p.role == was.role && p.elided == was.elided
    ensures Face(Patch(p, e)) == Face(Patch(was, e))
  {
    assert Face(p).id == p.id && Face(was).id == was.id;
    assert Face(p).role == p.role && Face(was).role == was.role;
    assert Face(p).elided == p.elided && Face(was).elided == was.elided;
    if !(was.elided && was.role != Tool) {
      assert p.(tokens := 0) == was.(tokens := 0);
      assert Patch(p, e).(tokens := 0) == Patch(was, e).(tokens := 0);
    } else {
      assert Patch(p, e).(tokens := 0, calls := [], reasoning := "") == Patch(was, e).(tokens := 0, calls := [], reasoning := "");
    }
  }

  function Faces(messages: seq<Message>): (r: seq<Message>)
    ensures |r| == |messages|
    ensures forall i :: 0 <= i < |messages| ==> r[i] == Face(messages[i])
  {
    seq(|messages|, i requires 0 <= i < |messages| => Face(messages[i]))
  }

  ghost predicate DistinctIds(messages: seq<Message>) {
    Distinct(Ids(messages))
  }

  ghost predicate Mirrors(projected: seq<Message>, live: seq<Message>) {
    Faces(projected) == Faces(live)
  }

  // ----- folding ------------------------------------------------------------------------------

  lemma FoldSnoc(messages: seq<Message>, events: seq<Event>, e: Event)
    ensures Fold(messages, events + [e]) == Project(Fold(messages, events), e)
  {
    assert (events + [e])[..|events|] == events;
  }

  lemma {:induction false} FoldConcat(messages: seq<Message>, a: seq<Event>, b: seq<Event>)
    ensures Fold(messages, a + b) == Fold(Fold(messages, a), b)
    decreases |b|
  {
    if b == [] {
      assert a + b == a;
    } else {
      var front, last := b[..|b| - 1], b[|b| - 1];
      assert a + b == a + front + [last] && b == front + [last];
      FoldConcat(messages, a, front);
      FoldSnoc(messages, a + front, last);
    }
  }

  // ----- removal --------------------------------------------------------------------------------

  lemma {:induction false} WithoutMirrors(projected: seq<Message>, live: seq<Message>, ids: set<string>)
    requires Mirrors(projected, live)
    ensures Mirrors(Without(projected, ids), Without(live, ids))
  {
    assert |Faces(projected)| == |Faces(live)|;
    if live != [] {
      assert Face(projected[0]) == Faces(projected)[0] == Faces(live)[0] == Face(live[0]);
      assert projected[0].id == Face(projected[0]).id == Face(live[0]).id == live[0].id;
      assert Mirrors(projected[1..], live[1..]) by {
        assert forall i :: 0 <= i < |live[1..]| ==> Faces(projected[1..])[i] == Faces(projected)[i + 1] && Faces(live[1..])[i] == Faces(live)[i + 1];
      }
      WithoutMirrors(projected[1..], live[1..], ids);
    }
  }

  lemma {:induction false} WithoutConcat(a: seq<Message>, b: seq<Message>, ids: set<string>)
    ensures Without(a + b, ids) == Without(a, ids) + Without(b, ids)
  {
    if a == [] {
      assert a + b == b;
    } else {
      assert (a + b)[1..] == a[1..] + b;
      WithoutConcat(a[1..], b, ids);
    }
  }

  lemma {:induction false} WithoutAll(messages: seq<Message>, ids: set<string>)
    requires forall i :: 0 <= i < |messages| ==> messages[i].id in ids
    ensures Without(messages, ids) == []
  {
    if messages != [] {
      WithoutAll(messages[1..], ids);
    }
  }

  lemma {:induction false} WithoutNone(messages: seq<Message>, ids: set<string>)
    requires forall i :: 0 <= i < |messages| ==> messages[i].id !in ids
    ensures Without(messages, ids) == messages
  {
    if messages != [] {
      WithoutNone(messages[1..], ids);
    }
  }

  lemma {:induction false} WithoutTwice(messages: seq<Message>, a: set<string>, b: set<string>)
    ensures Without(Without(messages, a), b) == Without(messages, a + b)
  {
    if messages != [] {
      WithoutTwice(messages[1..], a, b);
      var head := if messages[0].id in a then [] else [messages[0]];
      WithoutConcat(head, Without(messages[1..], a), b);
    }
  }

  lemma {:induction false} RemovalsFold(messages: seq<Message>, ids: seq<string>)
    ensures Fold(messages, Removals(ids)) == Without(messages, Members(ids))
    decreases |ids|
  {
    if ids == [] {
      WithoutNone(messages, Members(ids));
    } else {
      var front, last := ids[..|ids| - 1], ids[|ids| - 1];
      assert Removals(ids) == Removals(front) + [MessageRemoved(last)];
      FoldSnoc(messages, Removals(front), MessageRemoved(last));
      RemovalsFold(messages, front);
      WithoutTwice(messages, Members(front), {last});
      assert Members(ids) == Members(front) + {last};
    }
  }

  // ----- rewriting one message --------------------------------------------------------------------

  /** The edit so far is mirrored by what it published, and ids are untouched. */
  ghost predicate EditOk(projected: seq<Message>, st: Edit) {
    Mirrors(Fold(projected, st.events), st.messages) && DistinctIds(st.messages)
  }

  /** `m` is `was` with new content, elided; the other mirrored fields are untouched. */
  ghost predicate Rewrites(was: Message, m: Message) {
    Face(m) == Face(was.(content := m.content, elided := true))
  }

  lemma RewriteMirrors(projected: seq<Message>, st: Edit, i: nat, m: Message)
    requires EditOk(projected, st) && i < |st.messages| && Rewrites(st.messages[i], m)
    ensures EditOk(projected, Rewrite(st, i, m))
  {
    var e := MessageUpdated(m.id, Some(m.content), Some(m.tokens), Some(true), None);
    var next := Rewrite(st, i, m);
    FoldSnoc(projected, st.events, e);
    var p := Fold(projected, st.events);
    assert |p| == |Faces(p)| == |Faces(st.messages)| == |st.messages|;
    assert m.id == Face(m).id == st.messages[i].id;
    assert Ids(next.messages) == Ids(st.messages);
    forall k | 0 <= k < |p|
      ensures Face(PatchAll(p, e)[k]) == Face(next.messages[k])
    {
      assert Faces(p)[k] == Faces(st.messages)[k];
      FaceSame(p[k], st.messages[k], e);
      if k != i {
        assert Ids(st.messages)[k] != Ids(st.messages)[i];
      }
    }
    assert Faces(PatchAll(p, e)) == Faces(next.messages);
  }

  lemma {:induction false} SupersedePriorMirrors(env: Env, projected: seq<Message>, st: Edit, item: Message, arguments: string, prior: nat, current: nat)
    requires prior <= current <= |st.messages| && EditOk(projected, st)
    ensures EditOk(projected, SupersedePrior(env, st, item, arguments, prior, current))
    decreases current - prior
  {
    if prior < current {
      if IsSuperseded(env, st.messages, prior, item, arguments) {
        var m := Elide(env, st.messages[prior], CallFor(st.messages, st.messages[prior].callId).value);
        RewriteMirrors(projected, st, prior, m);
        SupersedePriorMirrors(env, projected, Rewrite(st, prior, m), item, arguments, prior + 1, current);
      } else {
        SupersedePriorMirrors(env, projected, st, item, arguments, prior + 1, current);
      }
    }
  }

  lemma {:induction false} SupersedeFromMirrors(env: Env, projected: seq<Message>, st: Edit, turn: int, current: nat)
    requires current <= |st.messages| && EditOk(projected, st)
    ensures EditOk(projected, SupersedeFrom(env, st, turn, current))
    decreases |st.messages| - current
  {
    if current < |st.messages| {
      var item := st.messages[current];
      var call := CallFor(st.messages, item.callId);
      if StartsSupersession(item, turn) && call.Some? {
        SupersedePriorMirrors(env, projected, st, item, call.value, 0, current);
        SupersedeFromMirrors(env, projected, SupersedePrior(env, st, item, call.value, 0, current), turn, current + 1);
      } else {
        SupersedeFromMirrors(env, projected, st, turn, current + 1);
      }
    }
  }

  lemma {:induction false} ElideFromMirrors(env: Env, projected: seq<Message>, before: seq<Message>, st: Edit, used: int, target: int, index: nat)
    requires index <= |st.messages| == |before| && EditOk(projected, st)
    ensures EditOk(projected, ElideFrom(env, before, st, used, target, index).0)
    decreases |before| - index
  {
    hide EditOk;
    if index < |before| && used > target {
      if Recent(before, index) || !Eligible(env, st.messages[index]) {
        ElideFromMirrors(env, projected, before, st, used, target, index + 1);
      } else {
        var m := st.messages[index];
        var updated := Elide(env, m, ArgumentsOr(CallFor(st.messages, m.callId)));
        RewriteMirrors(projected, st, index, updated);
        ElideFromMirrors(env, projected, before, Rewrite(st, index, updated), used - Max(0, m.tokens - updated.tokens), target, index + 1);
      }
    }
  }

  lemma {:induction false} SettleFromMirrors(env: Env, projected: seq<Message>, st: Edit, pointer: string, wanted: set<string>, index: nat)
    requires index <= |st.messages| && EditOk(projected, st)
    ensures EditOk(projected, SettleFrom(env, st, pointer, wanted, index))
    decreases |st.messages| - index
  {
    if index < |st.messages| {
      var m := st.messages[index];
      if Settleable(m, wanted) {
        RewriteMirrors(projected, st, index, SettleOne(env, m, pointer));
        SettleFromMirrors(env, projected, Rewrite(st, index, SettleOne(env, m, pointer)), pointer, wanted, index + 1);
      } else {
        SettleFromMirrors(env, projected, st, pointer, wanted, index + 1);
      }
    }
  }

  // ----- one operation ---------------------------------------------------------------------------------

  /** What every operation has to keep. */
  ghost predicate ResultOk(projected: seq<Message>, r: Result) {
    Mirrors(Fold(projected, r.events), r.messages) && DistinctIds(r.messages)
  }

  lemma CloseMirrors(projected: seq<Message>, before: seq<Message>, st: Edit)
    requires Mirrors(projected, before) && DistinctIds(before) && EditOk(projected, st)
    ensures ResultOk(projected, Close(before, st))
  {
    FoldSnoc(projected, st.events, Compaction(false, st.affected));
  }

  lemma ConcatFaces(a: seq<Message>, b: seq<Message>)
    ensures Faces(a + b) == Faces(a) + Faces(b)
    ensures Ids(a + b) == Ids(a) + Ids(b)
  {
  }

  lemma MirrorsConcat(p1: seq<Message>, l1: seq<Message>, p2: seq<Message>, l2: seq<Message>)
    requires Mirrors(p1, l1) && Mirrors(p2, l2)
    ensures Mirrors(p1 + p2, l1 + l2)
  {
    ConcatFaces(p1, p2);
    ConcatFaces(l1, l2);
  }

  lemma SliceMirrors(projected: seq<Message>, live: seq<Message>, lo: nat, hi: nat)
    requires Mirrors(projected, live) && lo <= hi <= |live|
    ensures |projected| == |live| && Mirrors(projected[lo..hi], live[lo..hi])
  {
    assert |Faces(projected)| == |Faces(live)|;
    assert Faces(projected[lo..hi]) == Faces(projected)[lo..hi];
    assert Faces(live[lo..hi]) == Faces(live)[lo..hi];
  }

  lemma AppendMirrors(projected: seq<Message>, live: seq<Message>, m: Message)
    requires Mirrors(projected, live) && DistinctIds(live) && m.id !in Ids(live) && m.category != Summary
    ensures ResultOk(projected, Result(live + [m], [MessageAppended(m)], true))
  {
    FoldSnoc(projected, [], MessageAppended(m));
    assert [] + [MessageAppended(m)] == [MessageAppended(m)];
    MirrorsConcat(projected, live, [m], [m]);
    ConcatFaces(live, [m]);
  }

  /** The summarized span is removed by the compaction event and the summary lands after the first message. */
  lemma SummarizeMirrors(projected: seq<Message>, live: seq<Message>, summary: Message)
    requires Mirrors(projected, live) && DistinctIds(live)
    requires summary.id !in Ids(live) && summary.category == Summary
    ensures ResultOk(projected, Summarize(live, summary))
  {
    hide Mirrors, DistinctIds, TokenSum;
    var r := Summarize(live, summary);
    if |live| > 7 && !r.changed {
      FoldSnoc(projected, [], CompactionSummary(false));
      assert [] + [CompactionSummary(false)] == [CompactionSummary(false)];
    } else if |live| > 7 {
      hide Fold;
      var a, span, b := live[..1], live[1..|live| - 6], live[|live| - 6..];
      assert live == a + span + b && Summarized(live, summary) == a + [summary] + b;
      SummarizeFolds(projected, a, span, b, summary);
      SummarizedDistinct(live, summary);
    }
  }

  lemma SummarizedDistinct(live: seq<Message>, summary: Message)
    requires |live| > 7 && DistinctIds(live) && summary.id !in Ids(live)
    ensures DistinctIds(Summarized(live, summary))
  {
    var out := Summarized(live, summary);
    var n := |live|;
    assert forall i :: 0 <= i < |out| ==> Ids(out)[i] == if i == 1 then summary.id else Ids(live)[if i == 0 then 0 else n - 8 + i];
  }

  lemma SummarizeFolds(projected: seq<Message>, a: seq<Message>, span: seq<Message>, b: seq<Message>, summary: Message)
    requires |a| == 1 && Mirrors(projected, a + span + b) && DistinctIds(a + span + b) && summary.category == Summary
    ensures Mirrors(
      Fold(projected, [CompactionSummary(true), Compaction(true, Ids(span)), MessageAppended(summary)]),
      a + [summary] + b)
  {
    hide Faces, Without, Distinct, Fold, Project;
    FoldThree(projected, Ids(span), summary);
    SpanRemoved(a, span, b);
    WithoutMirrors(projected, a + span + b, Members(Ids(span)));
    InsertMirrors(Without(projected, Members(Ids(span))), a + b, summary);
    assert (a + b)[..1] == a && (a + b)[1..] == b;
  }

  lemma FoldThree(projected: seq<Message>, ids: seq<string>, summary: Message)
    ensures Fold(projected, [CompactionSummary(true), Compaction(true, ids), MessageAppended(summary)])
      == Project(Without(projected, Members(ids)), MessageAppended(summary))
  {
    var e1, e2, e3 := CompactionSummary(true), Compaction(true, ids), MessageAppended(summary);
    assert [e1] + [e2] + [e3] == [e1, e2, e3] && [] + [e1] == [e1];
    FoldSnoc(projected, [], e1);
    FoldSnoc(projected, [e1], e2);
    FoldSnoc(projected, [e1] + [e2], e3);
  }

  /** Inserting the summary after the first message, on both sides. */
  lemma InsertMirrors(p: seq<Message>, live: seq<Message>, summary: Message)
    requires Mirrors(p, live) && |live| >= 1 && summary.category == Summary
    ensures Mirrors(Project(p, MessageAppended(summary)), live[..1] + [summary] + live[1..])
  {
    var n := |live|;
    SliceMirrors(p, live, 0, 1);
    SliceMirrors(p, live, 1, n);
    assert p[0..1] == p[..1] && p[1..n] == p[1..] && live[0..1] == live[..1] && live[1..n] == live[1..];
    MirrorsConcat(p[..1], live[..1], [summary], [summary]);
    MirrorsConcat(p[..1] + [summary], live[..1] + [summary], p[1..], live[1..]);
  }

  /** In a list with distinct ids, the ids of one span do not occur outside it. */
  lemma SpanIds(a: seq<Message>, span: seq<Message>, b: seq<Message>)
    requires DistinctIds(a + span + b)
    ensures forall i :: 0 <= i < |a| ==> a[i].id !in Ids(span)
    ensures forall i :: 0 <= i < |b| ==> b[i].id !in Ids(span)
  {
    var all := a + span + b;
    var ids := Ids(all);
    forall i, k | 0 <= i < |a| && 0 <= k < |span| ensures a[i].id != Ids(span)[k] {
      assert all[i] == a[i] && all[|a| + k] == span[k];
      assert ids[i] != ids[|a| + k];
    }
    forall i, k | 0 <= i < |b| && 0 <= k < |span| ensures b[i].id != Ids(span)[k] {
      assert all[|a| + |span| + i] == b[i] && all[|a| + k] == span[k];
      assert ids[|a| + k] != ids[|a| + |span| + i];
    }
  }

  lemma SpanRemoved(a: seq<Message>, span: seq<Message>, b: seq<Message>)
    requires DistinctIds(a + span + b)
    ensures Without(a + span + b, Members(Ids(span))) == a + b
  {
    hide Without;
    var ids := Members(Ids(span));
    SpanIds(a, span, b);
    hide Distinct;
    WithoutConcat(a + span, b, ids);
    WithoutConcat(a, span, ids);
    assert forall i :: 0 <= i < |span| ==> Ids(span)[i] in Ids(span);
    WithoutAll(span, ids);
    WithoutNone(a, ids);
    WithoutNone(b, ids);
    assert a + [] == a;
  }

  lemma DropLastMirrors(projected: seq<Message>, live: seq<Message>)
    requires Mirrors(projected, live) && DistinctIds(live)
    ensures ResultOk(projected, DropLast(live))
  {
    if live != [] {
      var front, last := live[..|live| - 1], live[|live| - 1];
      FoldSnoc(projected, [], MessageRemoved(last.id));
      assert [] + [MessageRemoved(last.id)] == [MessageRemoved(last.id)];
      assert live == front + [last];
      WithoutMirrors(projected, live, {last.id});
      WithoutConcat(front, [last], {last.id});
      assert forall i :: 0 <= i < |front| ==> front[i].id == Ids(live)[i];
      assert last.id == Ids(live)[|live| - 1];
      WithoutNone(front, {last.id});
      assert Ids(front) == Ids(live)[..|live| - 1];
    }
  }

  // ----- repair -----------------------------------------------------------------------------------------

  lemma {:induction false} GoneIds(env: Env, messages: seq<Message>, bad: Message, at: int, id: string)
    ensures id in Gone(env, messages, bad, at) <==>
      exists i :: 0 <= i < |messages| && messages[i].id == id && Dropped(env, messages[i], bad, at == i)
  {
    if messages != [] {
      hide Dropped;
      var rest := messages[1..];
      GoneIds(env, rest, bad, at - 1, id);
      assert forall i :: 0 <= i < |rest| ==> rest[i] == messages[i + 1];
      if id in Gone(env, rest, bad, at - 1) {
        var i :| 0 <= i < |rest| && rest[i].id == id && Dropped(env, rest[i], bad, at - 1 == i);
        assert messages[i + 1].id == id && Dropped(env, messages[i + 1], bad, at == i + 1);
      }
      if i :| 0 < i < |messages| && messages[i].id == id && Dropped(env, messages[i], bad, at == i) {
        assert rest[i - 1].id == id && Dropped(env, rest[i - 1], bad, at - 1 == i - 1);
      }
    }
  }

  /** The list with the calls of one message cleared. */
  function Cleared(messages: seq<Message>, at: int): (r: seq<Message>)
    ensures |r| == |messages|
  {
    if 0 <= at < |messages| then messages[at := messages[at].(calls := [])] else messages
  }

  /** The repair clears the calls of the bad message and removes what is dropped. */
  lemma {:induction false} KeptIsWithout(env: Env, messages: seq<Message>, bad: Message, at: int, gone: set<string>)
    requires forall i :: 0 <= i < |messages| ==> (messages[i].id in gone <==> Dropped(env, messages[i], bad, at == i))
    ensures Kept(env, messages, bad, at) == Without(Cleared(messages, at), gone)
  {
    hide Dropped;
    if messages != [] {
      var rest := messages[1..];
      assert forall i :: 0 <= i < |rest| ==> rest[i] == messages[i + 1];
      KeptIsWithout(env, rest, bad, at - 1, gone);
      assert Cleared(messages, at)[1..] == Cleared(rest, at - 1);
      assert Cleared(messages, at)[0] == if at == 0 then messages[0].(calls := []) else messages[0];
    }
  }

  /** Clearing the calls of a message that is removed makes no difference. */
  lemma {:induction false} ClearedGone(messages: seq<Message>, at: int, gone: set<string>)
    requires 0 <= at < |messages| ==> messages[at].id in gone
    ensures Without(Cleared(messages, at), gone) == Without(messages, gone)
  {
    if messages != [] {
      ClearedGone(messages[1..], at - 1, gone);
      assert Cleared(messages, at)[1..] == Cleared(messages[1..], at - 1);
    }
  }

  lemma {:induction false} WithoutDistinct(messages: seq<Message>, gone: set<string>)
    requires DistinctIds(messages)
    ensures DistinctIds(Without(messages, gone))
    ensures forall i :: 0 <= i < |Without(messages, gone)| ==> Without(messages, gone)[i].id in Ids(messages)
  {
    if messages != [] {
      var rest := messages[1..];
      assert Ids(rest) == Ids(messages)[1..];
      WithoutDistinct(rest, gone);
      assert messages[0].id == Ids(messages)[0];
      assert forall x :: x in Ids(rest) ==> x in Ids(messages) && x != messages[0].id;
      if messages[0].id !in gone {
        ConcatFaces([messages[0]], Without(rest, gone));
        assert forall i :: 0 <= i < |Without(rest, gone)| ==> Ids(Without(rest, gone))[i] != messages[0].id;
      }
    }
  }

  /** The update that clears the calls of one message does so on both sides. */
  lemma ClearMirrors(projected: seq<Message>, live: seq<Message>, at: nat)
    requires Mirrors(projected, live) && DistinctIds(live) && at < |live|
    ensures Mirrors(PatchAll(projected, MessageUpdated(live[at].id, None, None, None, Some([]))), Cleared(live, at))
  {
    var e := MessageUpdated(live[at].id, None, None, None, Some([]));
    assert |projected| == |Faces(projected)| == |Faces(live)| == |live|;
    forall k | 0 <= k < |live|
      ensures Face(PatchAll(projected, e)[k]) == Face(Cleared(live, at)[k])
    {
      assert Faces(projected)[k] == Faces(live)[k];
      FaceSame(projected[k], live[k], e);
      if k != at {
        assert Ids(live)[k] != Ids(live)[at];
      }
    }
    assert Faces(PatchAll(projected, e)) == Faces(Cleared(live, at));
  }

  lemma GoneExactly(env: Env, live: seq<Message>, bad: Message, at: nat)
    requires DistinctIds(live)
    ensures forall i :: 0 <= i < |live| ==> (live[i].id in Members(Gone(env, live, bad, at)) <==> Dropped(env, live[i], bad, at == i))
  {
    hide Dropped, Gone;
    forall i | 0 <= i < |live|
      ensures live[i].id in Members(Gone(env, live, bad, at)) <==> Dropped(env, live[i], bad, at == i)
    {
      GoneIds(env, live, bad, at, live[i].id);
      assert forall k :: 0 <= k < |live| && live[k].id == live[i].id ==> Ids(live)[k] == Ids(live)[i] && k == i;
    }
  }

  /** What the repair publishes before it removes anything, and what it then has to be compared with. */
  lemma ClearedMirrors(env: Env, projected: seq<Message>, live: seq<Message>, at: nat)
    requires Mirrors(projected, live) && DistinctIds(live) && at < |live|
    ensures var blank := env.blank(live[at].content);
      Mirrors(Fold(projected, if blank then [] else [MessageUpdated(live[at].id, None, None, None, Some([]))]),
              if blank then live else Cleared(live, at))
  {
    var e := MessageUpdated(live[at].id, None, None, None, Some([]));
    FoldSnoc(projected, [], e);
    assert [] + [e] == [e];
    ClearMirrors(projected, live, at);
  }

  /** What the repair keeps is the list to compare with, without what it removes. */
  lemma RepairKept(env: Env, live: seq<Message>, at: nat)
    requires DistinctIds(live) && at < |live|
    ensures var gone := Members(Gone(env, live, live[at], at)); var kept := Kept(env, live, live[at], at);
      && kept == Without(if env.blank(live[at].content) then live else Cleared(live, at), gone)
      && DistinctIds(kept)
  {
    hide Dropped, Gone, Kept, Without, DistinctIds, Cleared;
    var gone := Members(Gone(env, live, live[at], at));
    GoneExactly(env, live, live[at], at);
    KeptIsWithout(env, live, live[at], at, gone);
    if env.blank(live[at].content) {
      BlankDropped(env, live[at]);
      ClearedGone(live, at, gone);
    }
    ClearedIds(live, at);
    WithoutDistinct(Cleared(live, at), gone);
  }

  lemma RepairFolds(projected: seq<Message>, cleared: seq<Event>, gone: seq<string>)
    ensures Fold(projected, cleared + Removals(gone) + [ModelRetry]) == Without(Fold(projected, cleared), Members(gone))
  {
    hide Without, Members;
    FoldSnoc(projected, cleared + Removals(gone), ModelRetry);
    FoldConcat(projected, cleared, Removals(gone));
    RemovalsFold(Fold(projected, cleared), gone);
  }

  lemma RepairMirrors(env: Env, projected: seq<Message>, live: seq<Message>)
    requires Mirrors(projected, live) && DistinctIds(live)
    ensures ResultOk(projected, Repair(env, live))
  {
    hide Mirrors, DistinctIds, Gone, Kept, Without, BadIndex, Cleared, Fold;
    var at := BadIndex(env, live);
    if at.None? {
      assert Fold(projected, []) == projected by { FoldNothing(projected); }
    } else {
      var bad := live[at.value];
      var blank := env.blank(bad.content);
      var gone := Gone(env, live, bad, at.value);
      var cleared := if blank then [] else [MessageUpdated(bad.id, None, None, None, Some([]))];
      ClearedMirrors(env, projected, live, at.value);
      RepairFolds(projected, cleared, gone);
      WithoutMirrors(Fold(projected, cleared), if blank then live else Cleared(live, at.value), Members(gone));
      RepairKept(env, live, at.value);
    }
  }

  lemma FoldNothing(projected: seq<Message>)
    ensures Fold(projected, []) == projected
  {
  }

  lemma BlankDropped(env: Env, bad: Message)
    requires env.blank(bad.content)
    ensures Dropped(env, bad, bad, true)
  {
  }

  lemma ClearedIds(live: seq<Message>, at: int)
    requires DistinctIds(live)
    ensures DistinctIds(Cleared(live, at))
  {
    assert Ids(Cleared(live, at)) == Ids(live);
  }

  // ----- every run ------------------------------------------------------------------------------------------

  lemma OperateMirrors(env: Env, projected: seq<Message>, live: seq<Message>, op: Op)
    requires Mirrors(projected, live) && DistinctIds(live) && WellFormedOp(live, op)
    ensures ResultOk(projected, Operate(env, live, op))
  {
    var start := Edit(live, [], []);
    match op
    case DoAppend(m) => AppendMirrors(projected, live, m);
    case DoSupersede(turn) =>
      SupersedeFromMirrors(env, projected, start, turn, 0);
      CloseMirrors(projected, live, SupersedeFrom(env, start, turn, 0));
    case DoElideOld(used, target) =>
      ElideFromMirrors(env, projected, live, start, used, target, 0);
      CloseMirrors(projected, live, ElideFrom(env, live, start, used, target, 0).0);
    case DoSummarize(summary) => SummarizeMirrors(projected, live, summary);
    case DoSettle(pointer, ids) =>
      var wanted := set id | id in ids && !env.blank(id);
      SettleFromMirrors(env, projected, start, pointer, wanted, 0);
      CloseMirrors(projected, live, SettleFrom(env, start, pointer, wanted, 0));
    case DoRepair => RepairMirrors(env, projected, live);
    case DoDropLast => DropLastMirrors(projected, live);
    case DoReset =>
      FoldSnoc(projected, [], SessionReset);
      assert [] + [SessionReset] == [SessionReset];
  }

  /**
    Main theorem: after any sequence of append, supersede, elide, summarize, settle, repair, drop-last
    and reset, folding everything that was published gives the live message list: the same messages in
    the same order with the same id, role, content, elided flag, category, turn, tool-call id, outcome and,
    unless the message was elided and is no tool result, calls and reasoning.
   */
  lemma {:induction false} FoldGivesLiveList(env: Env, ops: seq<Op>)
    requires WellFormed(env, ops)
    ensures Mirrors(Fold([], After(env, ops).events), After(env, ops).messages)
    ensures DistinctIds(After(env, ops).messages)
  {
    if ops != [] {
      var before := After(env, ops[..|ops| - 1]);
      FoldGivesLiveList(env, ops[..|ops| - 1]);
      var projected := Fold([], before.events);
      var r := Operate(env, before.messages, ops[|ops| - 1]);
      OperateMirrors(env, projected, before.messages, ops[|ops| - 1]);
      FoldConcat([], before.events, r.events);
    }
  }

  /**
    Appended messages must not be of the summary category, unless the list has at most one message:
    the projector moves a summary to the second place, the live append puts it last.
   */
  lemma AppendMirroredExactly(projected: seq<Message>, live: seq<Message>, m: Message)
    requires Mirrors(projected, live) && DistinctIds(live) && m.id !in Ids(live)
    ensures Mirrors(Project(projected, MessageAppended(m)), live + [m]) <==> m.category != Summary || |live| <= 1
  {
    assert |projected| == |Faces(projected)| == |Faces(live)| == |live|;
    MirrorsConcat(projected, live, [m], [m]);
    if m.category == Summary {
      var moved := Project(projected, MessageAppended(m));
      if |live| <= 1 {
        assert moved == projected + [m];
      } else {
        assert moved[1] == m && Faces(moved)[1] == Face(m);
        assert Faces(live + [m])[1] == Face(live[1]);
        assert Ids(live)[1] == live[1].id == Face(live[1]).id;
        assert Face(m).id == m.id && m.id != live[1].id;
      }
    }
  }
}
