/**
  Which messages the compactor and the repair touch, said of the original list alone: the loops read a
  list that they are rewriting, and still every message is decided by the list as it was.
 */
module CompactionEffects {
  import opened Prelude
  import opened Transcript

  /** The same calls at the same places. */
  ghost predicate SameCalls(a: seq<Message>, b: seq<Message>) {
    |a| == |b| && forall i :: 0 <= i < |a| ==> a[i].calls == b[i].calls
  }

  lemma {:induction false} SameCallFor(a: seq<Message>, b: seq<Message>, id: string)
    requires SameCalls(a, b)
    ensures CallFor(a, id) == CallFor(b, id)
  {
    if a != [] {
      SameCallFor(a[1..], b[1..], id);
    }
  }

  /** The stub of a message, made with the arguments of its own call. */
  function Stub(env: Env, messages: seq<Message>, i: nat): Message
    requires i < |messages|
  {
    Elide(env, messages[i], ArgumentsOr(CallFor(messages, messages[i].callId)))
  }

  /** The list with the messages at the given places replaced by their stubs. */
  ghost predicate Stubbed(env: Env, messages: seq<Message>, gone: set<nat>, r: seq<Message>) {
    |r| == |messages| && forall i :: 0 <= i < |messages| ==> r[i] == if i in gone then Stub(env, messages, i) else messages[i]
  }

  lemma StubbedCalls(env: Env, messages: seq<Message>, gone: set<nat>, r: seq<Message>, id: string)
    requires Stubbed(env, messages, gone, r)
    ensures CallFor(r, id) == CallFor(messages, id)
  {
    SameCallFor(r, messages, id);
  }

  /** Rewriting one more message with its stub. */
  lemma StubOne(env: Env, messages: seq<Message>, gone: set<nat>, st: Edit, i: nat)
    requires Stubbed(env, messages, gone, st.messages) && i < |messages| && i !in gone
    ensures Stubbed(env, messages, gone + {i},
      Rewrite(st, i, Elide(env, st.messages[i], ArgumentsOr(CallFor(st.messages, st.messages[i].callId)))).messages)
  {
    StubbedCalls(env, messages, gone, st.messages, messages[i].callId);
  }

  // ----- superseded reads -----------------------------------------------------------------------------------------

  /** The result at `c`, of this turn, makes the earlier one at `i` redundant. */
  predicate Covers(env: Env, messages: seq<Message>, turn: int, i: nat, c: nat)
    requires c < |messages|
  {
    && i < c && StartsSupersession(messages[c], turn)
    && var call := CallFor(messages, messages[c].callId);
       call.Some? && IsSuperseded(env, messages, i, messages[c], call.value)
  }

  /** The places from `prior` on that the result at `c` covers. */
  function CoveredHere(env: Env, messages: seq<Message>, turn: int, prior: nat, c: nat): set<nat>
    requires c < |messages|
  {
    set i | prior <= i < c && Covers(env, messages, turn, i, c)
  }

  lemma HereStep(env: Env, messages: seq<Message>, turn: int, prior: nat, c: nat)
    requires prior < c < |messages|
    ensures CoveredHere(env, messages, turn, prior, c)
      == (if Covers(env, messages, turn, prior, c) then {prior} else {}) + CoveredHere(env, messages, turn, prior + 1, c)
    ensures prior !in CoveredHere(env, messages, turn, prior + 1, c)
  {
    hide Covers;
  }

  /** The places covered by some result from `lo` up to `hi`. */
  function CoveredBy(env: Env, messages: seq<Message>, turn: int, lo: nat, hi: nat): set<nat>
    requires hi <= |messages|
  {
    set i, c | 0 <= i < hi && lo <= c < hi && Covers(env, messages, turn, i, c) :: i
  }

  /** Whether a place is superseded does not depend on what was stubbed before, unless it was itself. */
  lemma SupersededSame(env: Env, messages: seq<Message>, gone: set<nat>, r: seq<Message>, i: nat, item: Message, arguments: string)
    requires Stubbed(env, messages, gone, r) && i < |messages|
    ensures IsSuperseded(env, r, i, item, arguments) <==> i !in gone && IsSuperseded(env, messages, i, item, arguments)
  {
    StubbedCalls(env, messages, gone, r, messages[i].callId);
  }

  lemma {:induction false} PriorEffect(env: Env, messages: seq<Message>, turn: int, gone: set<nat>, st: Edit, prior: nat, c: nat)
    returns (more: set<nat>)
    requires Stubbed(env, messages, gone, st.messages) && prior <= c < |messages| && StartsSupersession(messages[c], turn)
    requires CallFor(messages, messages[c].callId).Some?
    ensures more == gone + CoveredHere(env, messages, turn, prior, c)
    ensures var r := SupersedePrior(env, st, messages[c], CallFor(messages, messages[c].callId).value, prior, c);
      && Stubbed(env, messages, more, r.messages)
      && (r.affected == [] <==> st.affected == [] && more == gone)
    decreases c - prior
  {
    more := gone;
    hide Stubbed, CallFor, IsSuperseded, CoveredHere, StartsSupersession;
    if prior == c {
      assert CoveredHere(env, messages, turn, c, c) == {} by { NothingHere(env, messages, turn, c); }
    } else {
      HereStep(env, messages, turn, prior, c);
      var item, arguments := messages[c], CallFor(messages, messages[c].callId).value;
      StubbedAt(env, messages, gone, st.messages, prior);
      SupersededSame(env, messages, gone, st.messages, prior, item, arguments);
      if IsSuperseded(env, st.messages, prior, item, arguments) {
        assert CallFor(st.messages, st.messages[prior].callId).Some? by { SupersededCall(env, st.messages, prior, item, arguments); }
        StubOne(env, messages, gone, st, prior);
        var next := Rewrite(st, prior, Elide(env, st.messages[prior], CallFor(st.messages, st.messages[prior].callId).value));
        assert prior !in gone;
        more := PriorEffect(env, messages, turn, gone + {prior}, next, prior + 1, c);
        assert prior in more;
      } else {
        more := PriorEffect(env, messages, turn, gone, st, prior + 1, c);
      }
    }
  }

  lemma NothingHere(env: Env, messages: seq<Message>, turn: int, c: nat)
    requires c < |messages|
    ensures CoveredHere(env, messages, turn, c, c) == {}
  {
  }

  lemma StubbedAt(env: Env, messages: seq<Message>, gone: set<nat>, r: seq<Message>, i: nat)
    requires Stubbed(env, messages, gone, r)
    ensures |r| == |messages| && (i < |messages| && i !in gone ==> r[i] == messages[i])
  {
  }

  lemma SupersededCall(env: Env, messages: seq<Message>, prior: nat, item: Message, arguments: string)
    requires prior < |messages| && IsSuperseded(env, messages, prior, item, arguments)
    ensures CallFor(messages, messages[prior].callId).Some?
  {
  }

  lemma {:induction false} SupersedeFromEffect(env: Env, messages: seq<Message>, turn: int, gone: set<nat>, st: Edit, current: nat)
    requires current <= |messages| && Stubbed(env, messages, gone, st.messages) && forall i :: i in gone ==> i < current
    ensures var r := SupersedeFrom(env, st, turn, current); var all := gone + CoveredBy(env, messages, turn, current, |messages|);
      && Stubbed(env, messages, all, r.messages)
      && (r.affected == [] <==> st.affected == [] && all == gone)
    decreases |messages| - current
  {
    hide CallFor, IsSuperseded, SupersedePrior, Stubbed, CoveredBy;
    StubbedAt(env, messages, gone, st.messages, current);
    if current < |messages| {
      var item := messages[current];
      StubbedCalls(env, messages, gone, st.messages, item.callId);
      var here := CoveredHere(env, messages, turn, 0, current);
      var rest := CoveredBy(env, messages, turn, current + 1, |messages|);
      CoveredSplit(env, messages, turn, current);
      if StartsSupersession(item, turn) && CallFor(messages, item.callId).Some? {
        var more := PriorEffect(env, messages, turn, gone, st, 0, current);
        assert more == gone + here;
        var next := SupersedePrior(env, st, item, CallFor(messages, item.callId).value, 0, current);
        SupersedeFromEffect(env, messages, turn, more, next, current + 1);
        assert more + rest == gone + (here + rest);
      } else {
        assert here == {};
        SupersedeFromEffect(env, messages, turn, gone, st, current + 1);
        assert gone + rest == gone + (here + rest);
      }
    } else {
      assert CoveredBy(env, messages, turn, current, |messages|) == {} by { NothingCovered(env, messages, turn); }
      assert gone + {} == gone;
    }
  }

  lemma NothingCovered(env: Env, messages: seq<Message>, turn: int)
    ensures CoveredBy(env, messages, turn, |messages|, |messages|) == {}
  {
  }

  lemma CoveredSplit(env: Env, messages: seq<Message>, turn: int, c: nat)
    requires c < |messages|
    ensures CoveredBy(env, messages, turn, c, |messages|)
      == CoveredHere(env, messages, turn, 0, c) + CoveredBy(env, messages, turn, c + 1, |messages|)
  {
    hide StartsSupersession, IsSuperseded, CallFor;
  }

  /** Supersede stubs exactly the results that a later result of the turn covers, each with its own arguments. */
  lemma SupersedeEffect(env: Env, messages: seq<Message>, turn: int)
    ensures var r := Supersede(env, messages, turn); var gone := CoveredBy(env, messages, turn, 0, |messages|);
      Stubbed(env, messages, gone, r.messages) && (r.changed <==> gone != {})
  {
    SupersedeFromEffect(env, messages, turn, {}, Edit(messages, [], []), 0);
    assert {} + CoveredBy(env, messages, turn, 0, |messages|) == CoveredBy(env, messages, turn, 0, |messages|);
  }

  // ----- old results --------------------------------------------------------------------------------------------------

  /** The old results among the first `n` messages: eligible, and not one of the last four. */
  function Old(env: Env, messages: seq<Message>, n: nat): set<nat>
    requires n <= |messages|
  {
    set i | 0 <= i < n && Eligible(env, messages[i]) && !Recent(messages, i)
  }

  /** What stubbing the old results among the first `n` messages saves. */
  function Saved(env: Env, messages: seq<Message>, n: nat): int
    requires n <= |messages|
  {
    if n == 0 then 0
    else
      Saved(env, messages, n - 1)
      + (if n - 1 in Old(env, messages, n) then Max(0, messages[n - 1].tokens - Stub(env, messages, n - 1).tokens) else 0)
  }

  /** Elision up to `cut` is what the target asks for: enough or everything, and at no point before it was there enough. */
  ghost predicate CutOff(env: Env, messages: seq<Message>, used: int, target: int, cut: nat) {
    && cut <= |messages|
    && (cut == |messages| || used - Saved(env, messages, cut) <= target)
    && (forall n :: 0 <= n < cut ==> used - Saved(env, messages, n) > target)
  }

  lemma {:induction false} ElideFromEffect(env: Env, messages: seq<Message>, st: Edit, used: int, start: int, target: int, index: nat)
    returns (cut: nat)
    requires index <= |messages| && Stubbed(env, messages, Old(env, messages, index), st.messages)
    requires used == start - Saved(env, messages, index) && forall n :: 0 <= n < index ==> start - Saved(env, messages, n) > target
    requires st.affected == [] <==> Old(env, messages, index) == {}
    ensures CutOff(env, messages, start, target, cut)
    ensures var (r, left) := ElideFrom(env, messages, st, used, target, index);
      && Stubbed(env, messages, Old(env, messages, cut), r.messages)
      && left == start - Saved(env, messages, cut)
      && (r.affected == [] <==> Old(env, messages, cut) == {})
    decreases |messages| - index
  {
    cut := index;
    hide Stubbed, CallFor, Eligible, Recent, Saved, Stub;
    var done := Old(env, messages, index);
    StubbedAt(env, messages, done, st.messages, index);
    if index < |messages| && used > target {
      var next := Old(env, messages, index + 1);
      OldStep(env, messages, index);
      SavedStep(env, messages, index);
      hide Old;
      if index !in next {
        assert next == done;
        cut := ElideFromEffect(env, messages, st, used, start, target, index + 1);
      } else {
        StubOne(env, messages, done, st, index);
        StubbedCalls(env, messages, done, st.messages, messages[index].callId);
        var m := messages[index];
        var updated := Elide(env, m, ArgumentsOr(CallFor(st.messages, m.callId)));
        cut := ElideFromEffect(env, messages, Rewrite(st, index, updated), used - Max(0, m.tokens - updated.tokens), start, target, index + 1);
      }
    }
  }

  lemma SavedStep(env: Env, messages: seq<Message>, i: nat)
    requires i < |messages|
    ensures var stub := Elide(env, messages[i], ArgumentsOr(CallFor(messages, messages[i].callId)));
      Saved(env, messages, i + 1) == Saved(env, messages, i)
        + if i in Old(env, messages, i + 1) then Max(0, messages[i].tokens - stub.tokens) else 0
    ensures Saved(env, messages, 0) == 0
  {
    hide Old, CallFor;
  }

  lemma OldStep(env: Env, messages: seq<Message>, i: nat)
    requires i < |messages|
    ensures i in Old(env, messages, i + 1) <==> Eligible(env, messages[i]) && !Recent(messages, i)
    ensures i !in Old(env, messages, i)
    ensures Old(env, messages, i + 1) == Old(env, messages, i) + if i in Old(env, messages, i + 1) then {i} else {}
  {
    hide Eligible, Recent;
  }

  /**
    ElideOld stubs the old results from the front, exactly as many as it takes to bring the used tokens
    down to the target, or all of them; the last four results and everything else stay as they are.
   */
  lemma ElideOldEffect(env: Env, messages: seq<Message>, used: int, target: int) returns (cut: nat)
    ensures CutOff(env, messages, used, target, cut)
    ensures var (r, left) := ElideOld(env, messages, used, target);
      && Stubbed(env, messages, Old(env, messages, cut), r.messages)
      && left == used - Saved(env, messages, cut)
      && (r.changed <==> Old(env, messages, cut) != {})
  {
    assert Old(env, messages, 0) == {} && Saved(env, messages, 0) == 0;
    cut := ElideFromEffect(env, messages, Edit(messages, [], []), used, used, target, 0);
  }

  // ----- settling -----------------------------------------------------------------------------------------------------

  ghost predicate Settled(env: Env, messages: seq<Message>, pointer: string, wanted: set<string>, n: nat, r: seq<Message>) {
    |r| == |messages| && forall i :: 0 <= i < |messages| ==>
      r[i] == if i < n && Settleable(messages[i], wanted) then SettleOne(env, messages[i], pointer) else messages[i]
  }

  lemma {:induction false} SettleFromEffect(env: Env, messages: seq<Message>, st: Edit, pointer: string, wanted: set<string>, index: nat)
    requires index <= |messages| && Settled(env, messages, pointer, wanted, index, st.messages)
    requires st.affected == [] <==> forall i :: 0 <= i < index ==> !Settleable(messages[i], wanted)
    ensures var r := SettleFrom(env, st, pointer, wanted, index);
      && Settled(env, messages, pointer, wanted, |messages|, r.messages)
      && (r.affected == [] <==> forall i :: 0 <= i < |messages| ==> !Settleable(messages[i], wanted))
    decreases |messages| - index
  {
    if index < |messages| {
      hide Settleable;
      var m := st.messages[index];
      var next := if Settleable(m, wanted) then Rewrite(st, index, SettleOne(env, m, pointer)) else st;
      assert Settled(env, messages, pointer, wanted, index + 1, next.messages);
      hide Settled;
      SettleFromEffect(env, messages, next, pointer, wanted, index + 1);
    }
  }

  /** Settle replaces exactly the selected un-elided user and assistant messages by the pointer. */
  lemma SettleEffect(env: Env, messages: seq<Message>, pointer: string, ids: seq<string>)
    ensures var r := Settle(env, messages, pointer, ids); var wanted := set id | id in ids && !env.blank(id);
      && Settled(env, messages, pointer, wanted, |messages|, r.messages)
      && (r.changed <==> exists i :: 0 <= i < |messages| && Settleable(messages[i], wanted))
  {
    var wanted := set id | id in ids && !env.blank(id);
    SettleFromEffect(env, messages, Edit(messages, [], []), pointer, wanted, 0);
  }

  // ----- what the tests mean ----------------------------------------------------------------------------------------

  /** Among some calls, the first one with this id. */
  ghost predicate FirstCall(calls: seq<ToolCall>, id: string, arguments: string) {
    exists j :: 0 <= j < |calls| && calls[j].id == id && calls[j].arguments == arguments && forall k :: 0 <= k < j ==> calls[k].id != id
  }

  ghost predicate NoCall(calls: seq<ToolCall>, id: string) {
    forall j :: 0 <= j < |calls| ==> calls[j].id != id
  }

  lemma {:induction false} CallInMeans(calls: seq<ToolCall>, id: string)
    ensures var r := CallIn(calls, id); if r.Some? then FirstCall(calls, id, r.value) else NoCall(calls, id)
  {
    if calls != [] && calls[0].id != id {
      var rest := calls[1..];
      CallInMeans(rest, id);
      assert forall j :: 0 <= j < |rest| ==> rest[j] == calls[j + 1];
      var r := CallIn(calls, id);
      if r.Some? {
        var j :| 0 <= j < |rest| && rest[j].id == id && rest[j].arguments == r.value && forall k :: 0 <= k < j ==> rest[k].id != id;
        assert calls[j + 1].id == id && forall k :: 0 <= k < j + 1 ==> calls[k].id != id;
      }
    }
  }

  /** The arguments a result is judged by are those of the first call in the list with the result's call id. */
  lemma {:induction false} CallForMeans(messages: seq<Message>, id: string)
    ensures var r := CallFor(messages, id);
      if r.Some? then exists i :: 0 <= i < |messages| && FirstCall(messages[i].calls, id, r.value) && forall k :: 0 <= k < i ==> NoCall(messages[k].calls, id)
      else forall k :: 0 <= k < |messages| ==> NoCall(messages[k].calls, id)
  {
    hide FirstCall, NoCall;
    if messages != [] {
      CallInMeans(messages[0].calls, id);
      var rest := messages[1..];
      CallForMeans(rest, id);
      assert forall k :: 0 <= k < |rest| ==> rest[k] == messages[k + 1];
      var r := CallFor(messages, id);
      if CallIn(messages[0].calls, id).Some? {
        assert FirstCall(messages[0].calls, id, r.value);
      } else if r.Some? {
        var i :| 0 <= i < |rest| && FirstCall(rest[i].calls, id, r.value) && forall k :: 0 <= k < i ==> NoCall(rest[k].calls, id);
        assert FirstCall(messages[i + 1].calls, id, r.value);
      }
    }
  }

  /** A stub keeps everything of the message but its content, and is counted by the content it has now. */
  lemma StubMeans(env: Env, messages: seq<Message>, i: nat)
    requires i < |messages|
    ensures var call := CallFor(messages, messages[i].callId); var text := env.stub(messages[i], if call.Some? then call.value else "");
      Stub(env, messages, i) == messages[i].(content := text, elided := true, tokens := env.count(text))
  {
  }

  /** A successful, still visible tool result. */
  predicate Visible(m: Message) {
    m.role == Tool && !m.elided && m.ok == Some(true)
  }

  /** A result covers an earlier one when both are visible reads or both visible searches, the later one is of this turn, and its call covers the other's. */
  lemma CoversMeans(env: Env, messages: seq<Message>, turn: int, i: nat, c: nat)
    requires i < c < |messages|
    ensures var earlier, later := messages[i], messages[c];
      var older, newer := CallFor(messages, earlier.callId), CallFor(messages, later.callId);
      Covers(env, messages, turn, i, c) <==>
        && Visible(earlier) && Visible(later) && earlier.name == later.name && later.name in {"read_file", "search_text"}
        && later.turn == turn && older.Some? && newer.Some? && env.covers(later.name, older.value, newer.value)
  {
  }

  /** The tool results after a place that are still there in full. */
  function OpenAfter(messages: seq<Message>, i: int): set<int> {
    set j | i < j < |messages| && j >= 0 && messages[j].role == Tool && !messages[j].elided
  }

  lemma {:induction false} OpenToolsCount(messages: seq<Message>, i: nat)
    requires i <= |messages|
    ensures OpenTools(messages[i..]) == |OpenAfter(messages, i - 1)|
    decreases |messages| - i
  {
    hide OpenAfter;
    if i == |messages| {
      NothingOpen(messages);
    } else {
      OpenToolsCount(messages, i + 1);
      assert messages[i..][1..] == messages[i + 1..];
      OpenAfterStep(messages, i);
      if messages[i].role == Tool && !messages[i].elided {
        assert |{i as int} + OpenAfter(messages, i)| == 1 + |OpenAfter(messages, i)|;
      }
    }
  }

  lemma NothingOpen(messages: seq<Message>)
    ensures OpenAfter(messages, |messages| - 1) == {}
  {
  }

  lemma OpenAfterStep(messages: seq<Message>, i: nat)
    requires i < |messages|
    ensures i !in OpenAfter(messages, i)
    ensures OpenAfter(messages, i - 1) ==
      if messages[i].role == Tool && !messages[i].elided then {i as int} + OpenAfter(messages, i) else OpenAfter(messages, i)
  {
  }

  /** An old result: not elided, not a failure, of a category that may go, and not one of the last four tool results. */
  lemma OldMeans(env: Env, messages: seq<Message>, n: nat, i: nat)
    requires i < n <= |messages|
    ensures var m := messages[i];
      i in Old(env, messages, n) <==>
        && !m.elided && m.category in {Files, Results, Fetched}
        && (m.ok == Some(true) || (m.ok == None && !env.refusal(m.content)))
        && !(m.role == Tool && |OpenAfter(messages, i)| < 4)
  {
    OpenToolsCount(messages, i + 1);
  }

  /** Settling selects un-elided user and assistant messages by id, and leaves of them the pointer. */
  lemma SettleMeans(env: Env, m: Message, pointer: string, wanted: set<string>)
    ensures Settleable(m, wanted) <==> m.id in wanted && !m.elided && m.role in {User, Assistant}
    ensures SettleOne(env, m, pointer) == m.(content := pointer, calls := [], reasoning := "", elided := true, tokens := env.count(pointer))
  {
  }

  // ----- repair -------------------------------------------------------------------------------------------------------

  /** How many messages cannot be rendered. */
  function BadCount(env: Env, messages: seq<Message>): nat {
    if messages == [] then 0 else (if Unrenderable(env, messages[0]) then 1 else 0) + BadCount(env, messages[1..])
  }

  lemma {:induction false} KeptCounts(env: Env, messages: seq<Message>, bad: Message, at: int)
    requires 0 <= at < |messages| ==> messages[at] == bad && Unrenderable(env, bad)
    ensures BadCount(env, Kept(env, messages, bad, at)) == BadCount(env, messages) - if 0 <= at < |messages| then 1 else 0
  {
    if messages != [] {
      var rest := Kept(env, messages[1..], bad, at - 1);
      KeptCounts(env, messages[1..], bad, at - 1);
      var head := if Dropped(env, messages[0], bad, at == 0) then [] else if at == 0 then [messages[0].(calls := [])] else [messages[0]];
      assert Kept(env, messages, bad, at) == head + rest;
      assert head != [] ==> (head + rest)[1..] == rest;
      assert head == [] ==> head + rest == rest;
    }
  }

  lemma {:induction false} NoneBad(env: Env, messages: seq<Message>)
    ensures BadCount(env, messages) > 0 <==> exists i :: 0 <= i < |messages| && Unrenderable(env, messages[i])
  {
    if messages != [] {
      var rest := messages[1..];
      NoneBad(env, rest);
      assert forall i :: 0 <= i < |rest| ==> rest[i] == messages[i + 1];
      if i :| 0 < i < |messages| && Unrenderable(env, messages[i]) {
        assert Unrenderable(env, rest[i - 1]);
      }
    }
  }

  /** A result of one of the calls of `bad`. */
  predicate Answers(bad: Message, m: Message) {
    m.role == Tool && exists call :: call in bad.calls && call.id == m.callId
  }

  /** `m` is message `i` of the list, without its calls if that is the bad one. */
  predicate ComesFrom(messages: seq<Message>, at: int, m: Message, i: int) {
    0 <= i < |messages| && m == if i == at then messages[i].(calls := []) else messages[i]
  }

  /** The bad message stays unless it is blank, any other one unless it is a result of one of its calls. */
  predicate Stays(env: Env, messages: seq<Message>, bad: Message, at: int, i: nat)
    requires i < |messages|
  {
    if i == at then !env.blank(messages[i].content) else !Answers(bad, messages[i])
  }

  /** `from` tells, in order, where each message of the repaired list comes from, and lists exactly what stays. */
  ghost predicate RepairedFrom(env: Env, messages: seq<Message>, bad: Message, at: int, r: seq<Message>, from: seq<int>, start: nat) {
    Increasing(from) && Sources(messages, at, r, from, start) && ListsWhatStays(env, messages, bad, at, from, start)
  }

  ghost predicate Sources(messages: seq<Message>, at: int, r: seq<Message>, from: seq<int>, start: nat) {
    |from| == |r| && forall k :: 0 <= k < |from| ==> start <= from[k] && ComesFrom(messages, at, r[k], from[k])
  }

  ghost predicate ListsWhatStays(env: Env, messages: seq<Message>, bad: Message, at: int, from: seq<int>, start: nat) {
    forall i :: start <= i < |messages| ==> (i in from <==> Stays(env, messages, bad, at, i))
  }

  lemma SourcesPrepend(messages: seq<Message>, at: int, tail: seq<Message>, rest: seq<int>, start: nat, head: Message)
    requires Sources(messages, at, tail, rest, start + 1) && ComesFrom(messages, at, head, start)
    ensures Sources(messages, at, [head] + tail, [start] + rest, start)
  {
    hide ComesFrom;
    var r, from := [head] + tail, [start] + rest;
    forall k | 0 <= k < |from| ensures start <= from[k] && ComesFrom(messages, at, r[k], from[k]) {
      if k > 0 {
        assert r[k] == tail[k - 1] && from[k] == rest[k - 1];
      }
    }
  }

  lemma IncreasingPrepend(rest: seq<int>, start: int)
    requires Increasing(rest) && forall k :: 0 <= k < |rest| ==> start < rest[k]
    ensures Increasing([start] + rest)
  {
    var from := [start] + rest;
    forall i, j | 0 <= i < j < |from| ensures from[i] < from[j] {
      assert from[j] == rest[j - 1] && (i > 0 ==> from[i] == rest[i - 1]);
    }
  }

  lemma ListsPrepend(env: Env, messages: seq<Message>, bad: Message, at: int, rest: seq<int>, start: nat)
    requires start < |messages| && ListsWhatStays(env, messages, bad, at, rest, start + 1) && start !in rest
    ensures ListsWhatStays(env, messages, bad, at, (if Stays(env, messages, bad, at, start) then [start] else []) + rest, start)
  {
    hide Stays;
  }

  lemma {:induction false} KeptFrom(env: Env, messages: seq<Message>, bad: Message, at: int, start: nat) returns (from: seq<int>)
    requires start <= |messages|
    ensures RepairedFrom(env, messages, bad, at, Kept(env, messages[start..], bad, at - start), from, start)
    decreases |messages| - start
  {
    from := [];
    if start < |messages| {
      var rest := KeptFrom(env, messages, bad, at, start + 1);
      var m, tail := messages[start], Kept(env, messages[start + 1..], bad, at - (start + 1));
      var stays := Stays(env, messages, bad, at, start);
      from := (if stays then [start] else []) + rest;
      assert stays <==> !Dropped(env, m, bad, start == at);
      OneMoreFrom(env, messages, bad, at, tail, rest, start);
      hide Dropped, RepairedFrom, Answers, Stays;
      var head := if start == at then m.(calls := []) else m;
      assert messages[start..][1..] == messages[start + 1..];
      assert Kept(env, messages[start..], bad, at - start) == (if stays then [head] else []) + tail;
    }
  }

  lemma OneMoreFrom(env: Env, messages: seq<Message>, bad: Message, at: int, tail: seq<Message>, rest: seq<int>, start: nat)
    requires start < |messages| && RepairedFrom(env, messages, bad, at, tail, rest, start + 1)
    ensures var m := messages[start]; var head := if start == at then m.(calls := []) else m; var stays := Stays(env, messages, bad, at, start);
      RepairedFrom(env, messages, bad, at, (if stays then [head] else []) + tail, (if stays then [start] else []) + rest, start)
  {
    hide Stays, ComesFrom, Sources, ListsWhatStays, Increasing;
    var m := messages[start];
    var head := if start == at then m.(calls := []) else m;
    SourcesBehind(messages, at, tail, rest, start);
    ListsPrepend(env, messages, bad, at, rest, start);
    if Stays(env, messages, bad, at, start) {
      assert ComesFrom(messages, at, head, start) by { HeadComesFrom(messages, at, start); }
      SourcesPrepend(messages, at, tail, rest, start, head);
      IncreasingPrepend(rest, start);
    } else {
      assert [] + rest == rest && [] + tail == tail;
    }
  }

  lemma HeadComesFrom(messages: seq<Message>, at: int, i: nat)
    requires i < |messages|
    ensures ComesFrom(messages, at, if i == at then messages[i].(calls := []) else messages[i], i)
  {
  }

  lemma SourcesBehind(messages: seq<Message>, at: int, tail: seq<Message>, rest: seq<int>, start: nat)
    requires Sources(messages, at, tail, rest, start + 1)
    ensures Sources(messages, at, tail, rest, start) && start !in rest && forall k :: 0 <= k < |rest| ==> start < rest[k]
  {
    hide ComesFrom;
  }

  /**
    A repair happens if and only if some message cannot be rendered.  It takes the last such message and
    leaves exactly one fewer.  The new list is the old one in order, in which that message is missing if
    its content is blank and without calls otherwise, and of the others exactly the tool results of its
    calls are missing.
   */
  lemma RepairEffect(env: Env, messages: seq<Message>) returns (at: Option<nat>, from: seq<int>)
    ensures var r := Repair(env, messages);
      && (r.changed <==> BadCount(env, messages) > 0) && (r.changed <==> at.Some?)
      && (!r.changed ==> r.messages == messages)
      && (at.Some? ==>
          && at.value < |messages| && Unrenderable(env, messages[at.value])
          && (forall k :: at.value < k < |messages| ==> !Unrenderable(env, messages[k]))
          && BadCount(env, r.messages) == BadCount(env, messages) - 1
          && RepairedFrom(env, messages, messages[at.value], at.value, r.messages, from, 0))
  {
    NoneBad(env, messages);
    at, from := BadIndex(env, messages), [];
    if at.Some? {
      assert Unrenderable(env, messages[at.value]);
      KeptCounts(env, messages, messages[at.value], at.value);
      from := KeptFrom(env, messages, messages[at.value], at.value, 0);
      assert messages[0..] == messages;
      hide Kept, Unrenderable, BadCount, RepairedFrom;
    }
  }

  // ----- what is published -------------------------------------------------------------------------------

  /** Every edit so far replaced one full message by an elided one at its own position `at[k]`, and told so. */
  ghost predicate Told(before: seq<Message>, st: Edit, at: seq<nat>) {
    && |st.messages| == |before| && |at| == |st.events| == |st.affected|
    && (forall k :: 0 <= k < |at| ==> at[k] < |before| && ToldOne(before, st, at[k], k))
    && (forall k, l :: 0 <= k < l < |at| ==> at[k] != at[l])
    && (forall i :: 0 <= i < |before| && i !in at ==> st.messages[i] == before[i])
  }

  ghost predicate ToldOne(before: seq<Message>, st: Edit, i: nat, k: nat)
    requires i < |before| == |st.messages| && k < |st.events| == |st.affected|
  {
    st.messages[i].elided && !before[i].elided && st.affected[k] == before[i].id && st.events[k] == UpdateOf(before[i].id, st.messages[i])
  }

  /** The update that tells the new content and tokens of an elided message. */
  function UpdateOf(id: string, m: Message): Event {
    MessageUpdated(id, Some(m.content), Some(m.tokens), Some(true), None)
  }

  lemma RewriteTells(before: seq<Message>, st: Edit, at: seq<nat>, i: nat, m: Message)
    requires Told(before, st, at) && i < |before| && !st.messages[i].elided && m.elided && m.id == st.messages[i].id
    ensures Told(before, Rewrite(st, i, m), at + [i])
  {
    var next := Rewrite(st, i, m);
    assert i !in at;
    forall k | 0 <= k < |at| ensures ToldOne(before, next, at[k], k) {
      assert ToldOne(before, st, at[k], k) && at[k] != i;
    }
    assert ToldOne(before, next, i, |at|);
    assert forall j :: 0 <= j < |before| && j !in at + [i] ==> j !in at && j != i;
  }

  lemma {:induction false} PriorTells(env: Env, before: seq<Message>, st: Edit, at: seq<nat>, item: Message, arguments: string, prior: nat, current: nat)
    returns (all: seq<nat>)
    requires prior <= current <= |st.messages| == |before| && Told(before, st, at)
    ensures Told(before, SupersedePrior(env, st, item, arguments, prior, current), all)
    decreases current - prior
  {
    hide Told, CallFor;
    all := at;
    if prior < current {
      var next := st;
      if IsSuperseded(env, st.messages, prior, item, arguments) {
        var m := Elide(env, st.messages[prior], CallFor(st.messages, st.messages[prior].callId).value);
        RewriteTells(before, st, at, prior, m);
        next, all := Rewrite(st, prior, m), at + [prior];
      }
      all := PriorTells(env, before, next, all, item, arguments, prior + 1, current);
    }
  }

  lemma {:induction false} SupersedeFromTells(env: Env, before: seq<Message>, st: Edit, at: seq<nat>, turn: int, current: nat) returns (all: seq<nat>)
    requires current <= |st.messages| == |before| && Told(before, st, at)
    ensures Told(before, SupersedeFrom(env, st, turn, current), all)
    decreases |before| - current
  {
    hide Told, CallFor;
    all := at;
    if current < |before| {
      var item := st.messages[current];
      var call := CallFor(st.messages, item.callId);
      var next := st;
      if StartsSupersession(item, turn) && call.Some? {
        all := PriorTells(env, before, st, at, item, call.value, 0, current);
        next := SupersedePrior(env, st, item, call.value, 0, current);
      }
      all := SupersedeFromTells(env, before, next, all, turn, current + 1);
    }
  }

  lemma {:induction false} ElideFromTells(env: Env, before: seq<Message>, st: Edit, at: seq<nat>, used: int, target: int, index: nat) returns (all: seq<nat>)
    requires index <= |st.messages| == |before| && Told(before, st, at)
    ensures Told(before, ElideFrom(env, before, st, used, target, index).0, all)
    decreases |before| - index
  {
    hide Told, CallFor, Recent;
    all := at;
    if index < |before| && used > target {
      if Recent(before, index) || !Eligible(env, st.messages[index]) {
        all := ElideFromTells(env, before, st, at, used, target, index + 1);
      } else {
        var m := st.messages[index];
        var updated := Elide(env, m, ArgumentsOr(CallFor(st.messages, m.callId)));
        RewriteTells(before, st, at, index, updated);
        all := ElideFromTells(env, before, Rewrite(st, index, updated), at + [index], used - Max(0, m.tokens - updated.tokens), target, index + 1);
      }
    }
  }

  lemma {:induction false} SettleFromTells(env: Env, before: seq<Message>, st: Edit, at: seq<nat>, pointer: string, wanted: set<string>, index: nat)
    returns (all: seq<nat>)
    requires index <= |st.messages| == |before| && Told(before, st, at)
    ensures Told(before, SettleFrom(env, st, pointer, wanted, index), all)
    decreases |before| - index
  {
    hide Told;
    all := at;
    if index < |before| {
      var next := st;
      if Settleable(st.messages[index], wanted) {
        RewriteTells(before, st, at, index, SettleOne(env, st.messages[index], pointer));
        next, all := Rewrite(st, index, SettleOne(env, st.messages[index], pointer)), at + [index];
      }
      all := SettleFromTells(env, before, next, all, pointer, wanted, index + 1);
    }
  }

  /**
    What is published for a changed list: one update for each message that changed, at positions `at`, with
    its new content and tokens, and then one compaction event that lists exactly their ids, in that order.
   */
  ghost predicate Announced(before: seq<Message>, r: Result, at: seq<nat>) {
    && |r.messages| == |before|
    && (forall k, l :: 0 <= k < l < |at| ==> at[k] != at[l])
    && (forall k :: 0 <= k < |at| ==> at[k] < |before| && !before[at[k]].elided && r.messages[at[k]].elided)
    && (forall i :: 0 <= i < |before| && i !in at ==> r.messages[i] == before[i])
    && (r.changed <==> at != [])
    && if at == [] then r.events == []
       else
         && |r.events| == |at| + 1 && r.events[|at|].Compaction? && !r.events[|at|].summarize
         && |r.events[|at|].affected| == |at|
         && forall k :: 0 <= k < |at| ==>
              r.events[|at|].affected[k] == before[at[k]].id && r.events[k] == UpdateOf(before[at[k]].id, r.messages[at[k]])
  }

  lemma CloseTells(before: seq<Message>, st: Edit, at: seq<nat>)
    requires Told(before, st, at)
    ensures Announced(before, Close(before, st), at)
  {
    var r := Close(before, st);
    if at != [] {
      assert forall k :: 0 <= k < |at| ==> ToldOne(before, st, at[k], k) && r.events[k] == st.events[k];
    }
  }

  lemma SupersedeAnnounces(env: Env, messages: seq<Message>, turn: int) returns (at: seq<nat>)
    ensures Announced(messages, Supersede(env, messages, turn), at)
  {
    at := SupersedeFromTells(env, messages, Edit(messages, [], []), [], turn, 0);
    CloseTells(messages, SupersedeFrom(env, Edit(messages, [], []), turn, 0), at);
  }

  lemma ElideOldAnnounces(env: Env, messages: seq<Message>, used: int, target: int) returns (at: seq<nat>)
    ensures Announced(messages, ElideOld(env, messages, used, target).0, at)
  {
    at := ElideFromTells(env, messages, Edit(messages, [], []), [], used, target, 0);
    CloseTells(messages, ElideFrom(env, messages, Edit(messages, [], []), used, target, 0).0, at);
  }

  lemma SettleAnnounces(env: Env, messages: seq<Message>, pointer: string, ids: seq<string>) returns (at: seq<nat>)
    ensures Announced(messages, Settle(env, messages, pointer, ids), at)
  {
    var wanted := set id | id in ids && !env.blank(id);
    at := SettleFromTells(env, messages, Edit(messages, [], []), [], pointer, wanted, 0);
    CloseTells(messages, SettleFrom(env, Edit(messages, [], []), pointer, wanted, 0), at);
  }
}
