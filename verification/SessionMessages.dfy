/**
  The session object's message list and the operations that rewrite it.  After any sequence of calls the
  list and everything published are those of the operations called, so folding what was published
  rebuilds the list.
 */
module SessionMessages {
  import opened Prelude
  import opened Transcript
  import Mirror = TranscriptMirror

  class ChatSession {
    const env: Env
    var messages: seq<Message>
    var log: seq<Event>  // everything published for the session
    ghost var ops: seq<Op>  // the operations called so far

    ghost predicate Valid()
      reads this
    {
      WellFormed(env, ops) && messages == After(env, ops).messages && log == After(env, ops).events
    }

    /** What every session in use satisfies. */
    lemma Mirrored()
      requires Valid()
      ensures Mirror.Mirrors(Fold([], log), messages) && Mirror.DistinctIds(messages)
    {
      Mirror.FoldGivesLiveList(env, ops);
    }

    lemma AfterPush(before: seq<Op>, op: Op)
      ensures var was := After(env, before); var r := Operate(env, was.messages, op);
        After(env, before + [op]) == Result(r.messages, was.events + r.events, r.changed)
      ensures WellFormed(env, before) && WellFormedOp(After(env, before).messages, op) ==> WellFormed(env, before + [op])
    {
      assert (before + [op])[..|before|] == before;
    }

    constructor (env: Env)
      ensures this.env == env && Valid() && ops == []
    {
      this.env := env;
      messages, log, ops := [], [], [];
    }

    method Append(m: Message)
      requires Valid() && WellFormedOp(messages, DoAppend(m))
      modifies this
      ensures Valid() && ops == old(ops) + [DoAppend(m)]
      ensures messages == old(messages) + [m] && log == old(log) + [MessageAppended(m)]
    {
      AfterPush(ops, DoAppend(m));
      ops := ops + [DoAppend(m)];
      messages := messages + [m];
      log := log + [MessageAppended(m)];
    }

    /** The edited copy is stored only if something changed. */
    method SupersedeReads(turn: int) returns (changed: bool)
      requires Valid()
      modifies this
      ensures Valid() && ops == old(ops) + [DoSupersede(turn)]
      ensures var r := Supersede(env, old(messages), turn); messages == r.messages && log == old(log) + r.events && changed == r.changed
    {
      AfterPush(ops, DoSupersede(turn));
      ops := ops + [DoSupersede(turn)];
      hide After, WellFormed, SupersedeFrom;
      var st := SupersedeLoop(messages, turn);
      changed := st.affected != [];
      if changed {
        messages := st.messages;
        log := log + (st.events + [Compaction(false, st.affected)]);
      }
    }

    /** Two nested loops over a copy of the list. */
    method SupersedeLoop(list: seq<Message>, turn: int) returns (st: Edit)
      ensures st == SupersedeFrom(env, Edit(list, [], []), turn, 0)
    {
      hide CallFor, StartsSupersession;
      st := Edit(list, [], []);
      var current := 0;
      while current < |list|
        invariant 0 <= current <= |list| == |st.messages|
        invariant SupersedeFrom(env, st, turn, current) == SupersedeFrom(env, Edit(list, [], []), turn, 0)
      {
        var item := st.messages[current];
        var call := CallFor(st.messages, item.callId);
        if StartsSupersession(item, turn) && call.Some? {
          ghost var before := st;
          var prior := 0;
          while prior < current
            invariant 0 <= prior <= current && |st.messages| == |list|
            invariant SupersedePrior(env, st, item, call.value, prior, current)
              == SupersedePrior(env, before, item, call.value, 0, current)
          {
            if IsSuperseded(env, st.messages, prior, item, call.value) {
              st := Rewrite(st, prior, Elide(env, st.messages[prior], CallFor(st.messages, st.messages[prior].callId).value));
            }
            prior := prior + 1;
          }
        }
        current := current + 1;
      }
    }

    /** The indexes of the last four un-elided tool results. */
    static method RecentIndexes(list: seq<Message>) returns (skip: set<nat>)
      ensures forall i :: i in skip <==> 0 <= i < |list| && Recent(list, i)
    {
      skip := {};
      var open, index := 0, |list|;
      while index > 0
        invariant 0 <= index <= |list|
        invariant open == OpenTools(list[index..])
        invariant forall i :: i in skip <==> index <= i < |list| && Recent(list, i)
      {
        index := index - 1;
        assert list[index..][1..] == list[index + 1..];
        if list[index].role == Tool && !list[index].elided {
          if open < 4 {
            skip := skip + {index};
          }
          open := open + 1;
        }
      }
    }

    method ElideOldResults(used: int, target: int) returns (changed: bool, left: int)
      requires Valid()
      modifies this
      ensures Valid() && ops == old(ops) + [DoElideOld(used, target)]
      ensures var (r, rest) := ElideOld(env, old(messages), used, target);
        messages == r.messages && log == old(log) + r.events && changed == r.changed && left == rest
    {
      AfterPush(ops, DoElideOld(used, target));
      ops := ops + [DoElideOld(used, target)];
      hide After, WellFormed, ElideFrom;
      var st;
      st, left := ElideLoop(messages, used, target);
      changed := st.affected != [];
      if changed {
        messages := st.messages;
        log := log + (st.events + [Compaction(false, st.affected)]);
      }
    }

    /** The loop over a copy of the list, until the target is met. */
    method ElideLoop(list: seq<Message>, used: int, target: int) returns (st: Edit, left: int)
      ensures (st, left) == ElideFrom(env, list, Edit(list, [], []), used, target, 0)
    {
      hide CallFor, Eligible, Recent;
      var skip := RecentIndexes(list);
      st, left := Edit(list, [], []), used;
      var index := 0;
      while index < |list| && left > target
        invariant 0 <= index <= |list| == |st.messages|
        invariant ElideFrom(env, list, st, left, target, index) == ElideFrom(env, list, Edit(list, [], []), used, target, 0)
        decreases |list| - index
      {
        var item := st.messages[index];
        if index !in skip && Eligible(env, item) {
          var updated := Elide(env, item, ArgumentsOr(CallFor(st.messages, item.callId)));
          left := left - Max(0, item.tokens - updated.tokens);
          st := Rewrite(st, index, updated);
        }
        index := index + 1;
      }
    }

    /** Summarize together with the append event its caller publishes when it accepts. */
    method SummarizeOlder(summary: Message) returns (changed: bool)
      requires Valid() && WellFormedOp(messages, DoSummarize(summary))
      modifies this
      ensures Valid() && ops == old(ops) + [DoSummarize(summary)]
      ensures var r := Summarize(old(messages), summary); messages == r.messages && log == old(log) + r.events && changed == r.changed
    {
      AfterPush(ops, DoSummarize(summary));
      ops := ops + [DoSummarize(summary)];
      hide After, WellFormed, TokenSum;
      if |messages| <= 7 {
        return false;
      }
      var out, affected := Condense(messages, summary);
      hide Summarized;
      if TokenSum(out) >= TokenSum(messages) {
        log := log + [CompactionSummary(false)];
        return false;
      }
      messages := out;
      log := log + [CompactionSummary(true), Compaction(true, affected), MessageAppended(summary)];
      return true;
    }

    /** The loop over the list: the first message, the summary and the last six, and the ids of the others. */
    static method Condense(list: seq<Message>, summary: Message) returns (out: seq<Message>, affected: seq<string>)
      requires |list| > 7
      ensures out == Summarized(list, summary) && affected == Ids(list[1..|list| - 6])
    {
      var n := |list|;
      out, affected := [list[0], summary], [];
      var index := 1;
      while index < n
        invariant 1 <= index <= n
        invariant out == [list[0], summary] + (if index <= n - 6 then [] else list[n - 6..index])
        invariant affected == Ids(list[1..if index <= n - 6 then index else n - 6])
      {
        if index >= n - 6 {
          out := out + [list[index]];
        } else {
          affected := affected + [list[index].id];
          assert list[1..index + 1] == list[1..index] + [list[index]];
        }
        index := index + 1;
      }
      assert list[n - 6..n] == list[n - 6..];
    }

    method SettleSpan(pointer: string, ids: seq<string>) returns (changed: bool)
      requires Valid()
      modifies this
      ensures Valid() && ops == old(ops) + [DoSettle(pointer, ids)]
      ensures var r := Settle(env, old(messages), pointer, ids); messages == r.messages && log == old(log) + r.events && changed == r.changed
    {
      AfterPush(ops, DoSettle(pointer, ids));
      ops := ops + [DoSettle(pointer, ids)];
      var wanted := set id | id in ids && !env.blank(id);
      var copy, published, affected: seq<string> := messages, [], [];
      var index := 0;
      while index < |copy|
        invariant 0 <= index <= |copy| == |messages|
        invariant SettleFrom(env, Edit(copy, published, affected), pointer, wanted, index)
          == SettleFrom(env, Edit(messages, [], []), pointer, wanted, 0)
        decreases |messages| - index
      {
        if Settleable(copy[index], wanted) {
          var settled := SettleOne(env, copy[index], pointer);
          copy := copy[index := settled];
          published := published + [MessageUpdated(settled.id, Some(settled.content), Some(settled.tokens), Some(true), None)];
          affected := affected + [settled.id];
        }
        index := index + 1;
      }
      changed := affected != [];
      if changed {
        messages := copy;
        log := log + (published + [Compaction(false, affected)]);
      }
    }

    /** The backward search for the last assistant message with an undecodable call. */
    method FindUnrenderable() returns (at: Option<nat>)
      ensures at == BadIndex(env, messages)
      ensures at.Some? ==> at.value < |messages| && Unrenderable(env, messages[at.value])
      ensures forall k :: (if at.Some? then at.value + 1 else 0) <= k < |messages| ==> !Unrenderable(env, messages[k])
    {
      hide Unrenderable;
      var index := |messages|;
      assert messages[..index] == messages;
      while index > 0
        invariant 0 <= index <= |messages|
        invariant BadIndex(env, messages[..index]) == BadIndex(env, messages)
      {
        assert messages[..index][..index - 1] == messages[..index - 1];
        if Unrenderable(env, messages[index - 1]) {
          return Some(index - 1);
        }
        index := index - 1;
      }
      return None;
    }

    /** Sorts the list into what the repair keeps and the ids it removes. */
    method SplitAround(at: nat) returns (kept: seq<Message>, removed: seq<string>)
      requires at < |messages|
      ensures kept == Kept(env, messages, messages[at], at)
      ensures removed == Gone(env, messages, messages[at], at)
    {
      hide Kept, Gone, Dropped;
      var bad := messages[at];
      kept, removed := [], [];
      var index := 0;
      assert messages[0..] == messages;
      while index < |messages|
        invariant 0 <= index <= |messages|
        invariant kept + Kept(env, messages[index..], bad, at - index) == Kept(env, messages, bad, at)
        invariant removed + Gone(env, messages[index..], bad, at - index) == Gone(env, messages, bad, at)
      {
        var m := messages[index];
        ghost var rest := messages[index + 1..];
        SplitStep(env, messages, bad, at, index);
        if Dropped(env, m, bad, index == at) {
          Associative(removed, [m.id], Gone(env, rest, bad, at - (index + 1)));
          removed := removed + [m.id];
        } else {
          var keep := if index == at then m.(calls := []) else m;
          Associative(kept, [keep], Kept(env, rest, bad, at - (index + 1)));
          kept := kept + [keep];
        }
        index := index + 1;
      }
      assert messages[index..] == [];
      SplitEnd(env, bad, at - index);
    }

    static lemma SplitEnd(env: Env, bad: Message, at: int)
      ensures Kept(env, [], bad, at) == [] && Gone(env, [], bad, at) == []
    {
    }

    static lemma SplitStep(env: Env, list: seq<Message>, bad: Message, at: nat, index: nat)
      requires index < |list|
      ensures var m := list[index];
        var rest := list[index + 1..];
        var kept := Kept(env, rest, bad, at - (index + 1));
        var gone := Gone(env, rest, bad, at - (index + 1));
        if Dropped(env, m, bad, index == at) then
          Kept(env, list[index..], bad, at - index) == kept && Gone(env, list[index..], bad, at - index) == [m.id] + gone
        else
          Kept(env, list[index..], bad, at - index) == [if index == at then m.(calls := []) else m] + kept
          && Gone(env, list[index..], bad, at - index) == gone
    {
      hide Dropped;
      assert list[index..][1..] == list[index + 1..];
    }

    method RepairMalformedToolCall() returns (repaired: bool)
      requires Valid()
      modifies this
      ensures Valid() && ops == old(ops) + [DoRepair]
      ensures var r := Repair(env, old(messages)); messages == r.messages && log == old(log) + r.events && repaired == r.changed
    {
      AfterPush(ops, DoRepair);
      ops := ops + [DoRepair];
      hide Kept, Gone, BadIndex, Unrenderable, Removals;
      var at := FindUnrenderable();
      if at.None? {
        return false;
      }
      var bad := messages[at.value];
      var kept, removed := SplitAround(at.value);
      messages := kept;
      var published := if env.blank(bad.content) then [] else [MessageUpdated(bad.id, None, None, None, Some([]))];
      published := published + Removals(removed);
      log := log + (published + [ModelRetry]);
      return true;
    }

    method DropLastMessage() returns (dropped: bool)
      requires Valid()
      modifies this
      ensures Valid() && ops == old(ops) + [DoDropLast]
      ensures dropped <==> old(messages) != []
      ensures dropped ==> old(messages) == messages + [Last(old(messages))] && log == old(log) + [MessageRemoved(Last(old(messages)).id)]
      ensures !dropped ==> messages == old(messages) && log == old(log)
    {
      AfterPush(ops, DoDropLast);
      ops := ops + [DoDropLast];
      hide After, WellFormed, Supersede, ElideOld, Summarize, Settle, Repair;
      if messages == [] {
        assert log + [] == log;
        return false;
      }
      var last := messages[|messages| - 1];
      assert messages == messages[..|messages| - 1] + [last];
      messages := messages[..|messages| - 1];
      log := log + [MessageRemoved(last.id)];
      return true;
    }

    method Reset()
      requires Valid()
      modifies this
      ensures Valid() && ops == old(ops) + [DoReset]
      ensures messages == [] && log == old(log) + [SessionReset]
    {
      AfterPush(ops, DoReset);
      ops := ops + [DoReset];
      messages := [];
      log := log + [SessionReset];
    }
  }
}
