/**
  Where user messages are, over every run of the scheduler: a message that Submit accepted is in
  exactly one place (transcript, body of a queued run, pending list, or dropped by Stop before its
  run was dispatched), and messages that had to wait enter the transcript in submission order.
 */
module SchedulerMessages {
  import opened Prelude
  import opened SchedulerSpec
  import Runs = SchedulerRuns

  /** The messages that waited, in order. */
  function Waits(lines: seq<Line>): seq<Message> {
    if lines == [] then []
    else
      var last := lines[|lines| - 1];
      Waits(lines[..|lines| - 1]) + (if last.waited then [last.message] else [])
  }

  function Messages(lines: seq<Line>): (r: seq<Message>)
    ensures |r| == |lines|
    ensures forall i :: 0 <= i < |lines| ==> r[i] == lines[i].message
  {
    seq(|lines|, i requires 0 <= i < |lines| => lines[i].message)
  }

  /** The bodies still to be appended for session `s`, from the front of the queue to the back. */
  function Bodies(queue: seq<Entry>, s: SessionId): seq<Message> {
    if queue == [] then []
    else
      (if queue[0].session == s && queue[0].body.Some? then [queue[0].body.value] else []) + Bodies(queue[1..], s)
  }

  function Survivors(messages: seq<Message>, gone: seq<Message>): seq<Message> {
    if messages == [] then []
    else (if messages[0] in gone then [] else [messages[0]]) + Survivors(messages[1..], gone)
  }

  /**
    The account of one session: the accepted messages are exactly those in the transcript, in queued
    bodies, pending, or dropped; and the waiting messages that were not dropped are, in submission
    order, those already in the transcript, then the queued bodies, then the pending list.
   */
  ghost predicate Balanced(accepted: seq<Line>, transcript: seq<Line>, bodies: seq<Message>, pending: seq<Message>, gone: seq<Message>) {
    && Survivors(Waits(accepted), gone) == Waits(transcript) + bodies + pending
    && Summed(Messages(accepted), Messages(transcript), bodies, pending, gone)
  }

  ghost predicate Summed(accepted: seq<Message>, transcript: seq<Message>, bodies: seq<Message>, pending: seq<Message>, gone: seq<Message>) {
    multiset(accepted) == multiset(transcript) + multiset(bodies) + multiset(pending) + multiset(gone)
  }

  ghost predicate AccountOk(st: State, queue: seq<Entry>, s: SessionId) {
    Balanced(At(st.accepted, s), At(st.transcript, s), Bodies(queue, s), At(st.pending, s), At(st.discarded, s))
  }

  /** Message ids come from a counter: they increase within a session and are never shared. */
  ghost predicate FreshIds(st: State) {
    Below(st) && Rising(st) && Apart(st)
  }

  ghost predicate Below(st: State) {
    forall s, i :: 0 <= i < |At(st.accepted, s)| ==> At(st.accepted, s)[i].message.id < st.nextMessage
  }

  ghost predicate Rising(st: State) {
    forall s, i, j :: 0 <= i < j < |At(st.accepted, s)| ==> At(st.accepted, s)[i].message.id < At(st.accepted, s)[j].message.id
  }

  ghost predicate Apart(st: State) {
    forall s, t, i, j ::
      0 <= i < |At(st.accepted, s)| && 0 <= j < |At(st.accepted, t)| && s != t ==>
      At(st.accepted, s)[i].message.id != At(st.accepted, t)[j].message.id
  }

  /** The ledger of all sessions, for a queue that may be split while Stop walks it. */
  ghost predicate Ledger(st: State, queue: seq<Entry>) {
    && FreshIds(st)
    && (forall s :: AccountOk(st, queue, s))
  }

  // ----- sequences ----------------------------------------------------------------------

  lemma WaitsSnoc(lines: seq<Line>, line: Line)
    ensures Waits(lines + [line]) == Waits(lines) + (if line.waited then [line.message] else [])
    ensures Messages(lines + [line]) == Messages(lines) + [line.message]
  {
    assert (lines + [line])[..|lines|] == lines;
  }

  lemma {:induction false} BodiesConcat(a: seq<Entry>, b: seq<Entry>, s: SessionId)
    ensures Bodies(a + b, s) == Bodies(a, s) + Bodies(b, s)
  {
    if a == [] {
      assert a + b == b;
    } else {
      assert (a + b)[1..] == a[1..] + b;
      BodiesConcat(a[1..], b, s);
    }
  }

  lemma {:induction false} SurvivorsConcat(a: seq<Message>, b: seq<Message>, gone: seq<Message>)
    ensures Survivors(a + b, gone) == Survivors(a, gone) + Survivors(b, gone)
  {
    if a == [] {
      assert a + b == b;
    } else {
      assert (a + b)[1..] == a[1..] + b;
      SurvivorsConcat(a[1..], b, gone);
    }
  }

  /** Dropping one more message from a list in which it survives once removes just that occurrence. */
  lemma {:induction false} SurvivorsDrop(all: seq<Message>, gone: seq<Message>, a: seq<Message>, m: Message, b: seq<Message>)
    requires Survivors(all, gone) == a + [m] + b
    requires m !in a && m !in b
    ensures Survivors(all, gone + [m]) == a + b
    decreases |all|
  {
    var left := Survivors(all, gone);
    assert left[|a|] == m;
    if all != [] {
      var head := if all[0] in gone then [] else [all[0]];
      if all[0] in gone {
        SurvivorsDrop(all[1..], gone, a, m, b);
      } else if all[0] == m {
        assert left[0] == m;
        assert a == [];
        assert b == Survivors(all[1..], gone) by { assert left[1..] == b; }
        SurvivorsUnaffected(all[1..], gone, m);
      } else {
        assert left[0] == all[0];
        assert a != [] && a[0] == all[0];
        assert Survivors(all[1..], gone) == a[1..] + [m] + b by { assert left[1..] == a[1..] + [m] + b; }
        SurvivorsDrop(all[1..], gone, a[1..], m, b);
        assert [a[0]] + (a[1..] + b) == a + b;
      }
    }
  }

  lemma {:induction false} SurvivorsUnaffected(all: seq<Message>, gone: seq<Message>, m: Message)
    requires m !in Survivors(all, gone)
    ensures Survivors(all, gone + [m]) == Survivors(all, gone)
  {
    if all != [] {
      assert all[0] !in gone ==> Survivors(all, gone)[0] == all[0];
      SurvivorsUnaffected(all[1..], gone, m);
    }
  }

  lemma AtMostOnce(lines: seq<Line>, m: Message)
    requires forall i, j :: 0 <= i < j < |lines| ==> lines[i].message.id < lines[j].message.id
    ensures multiset(Messages(lines))[m] <= 1
    decreases |lines|
  {
    if lines != [] {
      var front, last := lines[..|lines| - 1], lines[|lines| - 1];
      assert front + [last] == lines;
      WaitsSnoc(front, last);
      AtMostOnce(front, m);
      if last.message == m {
        assert m !in Messages(front);
      }
    }
  }

  // ----- what each movement does to one account -----------------------------------------

  lemma BalancedWait(acc: seq<Line>, tr: seq<Line>, bodies: seq<Message>, pending: seq<Message>, gone: seq<Message>, m: Message)
    requires Balanced(acc, tr, bodies, pending, gone) && m !in Messages(acc)
    ensures Balanced(acc + [Line(m, true)], tr, bodies, pending + [m], gone)
  {
    hide Survivors, Waits;
    WaitsSnoc(acc, Line(m, true));
    SummedWait(Messages(acc), Messages(tr), bodies, pending, gone, m);
    hide Summed;
    SurvivorsConcat(Waits(acc), [m], gone);
    SurvivesAlone(m, gone);
    assert Waits(tr) + bodies + pending + [m] == Waits(tr) + bodies + (pending + [m]);
  }

  lemma SurvivesAlone(m: Message, gone: seq<Message>)
    requires m !in gone
    ensures Survivors([m], gone) == [m]
  {
  }

  lemma SummedWait(acc: seq<Message>, tr: seq<Message>, bodies: seq<Message>, pending: seq<Message>, gone: seq<Message>, m: Message)
    requires Summed(acc, tr, bodies, pending, gone) && m !in acc
    ensures Summed(acc + [m], tr, bodies, pending + [m], gone)
    ensures m !in gone
  {
    assert multiset(acc)[m] == 0;
  }

  lemma BalancedEnqueue(acc: seq<Line>, tr: seq<Line>, bodies: seq<Message>, pending: seq<Message>, gone: seq<Message>)
    requires Balanced(acc, tr, bodies, pending, gone) && pending != []
    ensures Balanced(acc, tr, bodies + [pending[0]], pending[1..], gone)
  {
    assert pending == [pending[0]] + pending[1..];
    assert Waits(tr) + bodies + pending == Waits(tr) + (bodies + [pending[0]]) + pending[1..];
  }

  lemma BalancedStart(acc: seq<Line>, tr: seq<Line>, bodies: seq<Message>, pending: seq<Message>, gone: seq<Message>)
    requires Balanced(acc, tr, bodies, pending, gone) && bodies != []
    ensures Balanced(acc, tr + [Line(bodies[0], true)], bodies[1..], pending, gone)
  {
    hide Survivors, Waits;
    WaitsSnoc(tr, Line(bodies[0], true));
    assert bodies == [bodies[0]] + bodies[1..];
    assert Waits(tr) + bodies + pending == Waits(tr) + [bodies[0]] + bodies[1..] + pending;
  }

  lemma BalancedDirect(acc: seq<Line>, tr: seq<Line>, bodies: seq<Message>, pending: seq<Message>, gone: seq<Message>, m: Message)
    requires Balanced(acc, tr, bodies, pending, gone)
    ensures Balanced(acc + [Line(m, false)], tr + [Line(m, false)], bodies, pending, gone)
  {
    hide Survivors, Waits;
    WaitsSnoc(acc, Line(m, false));
    WaitsSnoc(tr, Line(m, false));
    assert Waits(acc + [Line(m, false)]) == Waits(acc) && Waits(tr + [Line(m, false)]) == Waits(tr);
    assert Summed(Messages(acc) + [m], Messages(tr) + [m], bodies, pending, gone);
  }

  lemma BalancedDrop(acc: seq<Line>, tr: seq<Line>, b1: seq<Message>, m: Message, b2: seq<Message>, pending: seq<Message>, gone: seq<Message>)
    requires Balanced(acc, tr, b1 + [m] + b2, pending, gone)
    requires multiset(Messages(acc))[m] <= 1
    ensures Balanced(acc, tr, b1 + b2, pending, gone + [m])
  {
    hide Survivors, Waits;
    var left, right := Waits(tr) + b1, b2 + pending;
    assert Waits(tr) + (b1 + [m] + b2) + pending == left + [m] + right;
    WaitsAreMessages(tr);
    assert multiset(b1 + [m] + b2) == multiset(b1) + multiset{m} + multiset(b2);
    assert multiset(b1)[m] == 0 && multiset(b2)[m] == 0 && multiset(pending)[m] == 0 && multiset(Messages(tr))[m] == 0;
    assert m !in left && m !in right;
    SurvivorsDrop(Waits(acc), gone, left, m, right);
    assert left + right == Waits(tr) + (b1 + b2) + pending;
    assert Summed(Messages(acc), Messages(tr), b1 + b2, pending, gone + [m]);
  }

  lemma WaitsAreMessages(lines: seq<Line>)
    ensures forall m :: m in Waits(lines) ==> m in Messages(lines)
  {
    if lines != [] {
      var front, last := lines[..|lines| - 1], lines[|lines| - 1];
      assert front + [last] == lines;
      WaitsSnoc(front, last);
      WaitsAreMessages(front);
    }
  }

  // ----- what each movement does to the ledger ------------------------------------------

  lemma FreshMessage(st: State, s: SessionId, text: string)
    requires FreshIds(st)
    ensures Message(st.nextMessage, text) !in Messages(At(st.accepted, s))
  {
  }

  /** The accepted messages of `s` grew by one with the newest id; nobody else's changed. */
  ghost predicate Accepts(st: State, next: State, s: SessionId, line: Line) {
    && line.message.id == st.nextMessage && next.nextMessage == st.nextMessage + 1
    && At(next.accepted, s) == At(st.accepted, s) + [line]
    && (forall t :: t != s ==> At(next.accepted, t) == At(st.accepted, t))
  }

  lemma AcceptKeepsBelow(st: State, next: State, s: SessionId, line: Line)
    requires Below(st) && Accepts(st, next, s, line)
    ensures Below(next)
  {
    hide At;
  }

  lemma AcceptKeepsRising(st: State, next: State, s: SessionId, line: Line)
    requires Below(st) && Rising(st) && Accepts(st, next, s, line)
    ensures Rising(next)
  {
    hide At;
    forall t, i, j | 0 <= i < j < |At(next.accepted, t)| ensures At(next.accepted, t)[i].message.id < At(next.accepted, t)[j].message.id {
      assert t == s ==> At(next.accepted, t)[i] == At(st.accepted, s)[i];
    }
  }

  lemma AcceptKeepsApart(st: State, next: State, s: SessionId, line: Line)
    requires Below(st) && Apart(st) && Accepts(st, next, s, line)
    ensures Apart(next)
  {
    hide At;
    forall t, u, i, j | 0 <= i < |At(next.accepted, t)| && 0 <= j < |At(next.accepted, u)| && t != u
      ensures At(next.accepted, t)[i].message.id != At(next.accepted, u)[j].message.id
    {
      assert t != s ==> At(next.accepted, t)[i].message.id < st.nextMessage;
      assert u != s ==> At(next.accepted, u)[j].message.id < st.nextMessage;
    }
  }

  lemma AcceptKeepsFresh(st: State, next: State, s: SessionId, line: Line)
    requires FreshIds(st) && line.message.id == st.nextMessage
    requires next.nextMessage == st.nextMessage + 1 && next.accepted == Push(st.accepted, s, line)
    ensures FreshIds(next)
  {
    assert Accepts(st, next, s, line);
    hide Below, Rising, Apart, Accepts;
    AcceptKeepsBelow(st, next, s, line);
    AcceptKeepsRising(st, next, s, line);
    AcceptKeepsApart(st, next, s, line);
  }

  lemma WaitKeeps(st: State, queue: seq<Entry>, s: SessionId, text: string)
    requires Ledger(st, queue)
    ensures Ledger(Wait(st, s, text), queue)
  {
    hide FreshIds, Balanced, Bodies, Messages;
    var m := Message(st.nextMessage, text);
    var next := Wait(st, s, text);
    AcceptKeepsFresh(st, next, s, Line(m, true));
    FreshMessage(st, s, text);
    forall t
      ensures AccountOk(next, queue, t)
    {
      assert AccountOk(st, queue, t);
      if t == s {
        BalancedWait(At(st.accepted, s), At(st.transcript, s), Bodies(queue, s), At(st.pending, s), At(st.discarded, s), m);
      }
    }
  }

  lemma DirectKeeps(st: State, queue: seq<Entry>, s: SessionId, text: string)
    requires Ledger(st, queue)
    ensures Ledger(AppendDirect(st, s, text), queue)
  {
    hide FreshIds, Balanced, Bodies, Messages;
    var m := Message(st.nextMessage, text);
    var next := AppendDirect(st, s, text);
    AcceptKeepsFresh(st, next, s, Line(m, false));
    forall t
      ensures AccountOk(next, queue, t)
    {
      assert AccountOk(st, queue, t);
      if t == s {
        BalancedDirect(At(st.accepted, s), At(st.transcript, s), Bodies(queue, s), At(st.pending, s), At(st.discarded, s), m);
      }
    }
  }

  lemma SingleBody(e: Entry, s: SessionId)
    ensures Bodies([e], s) == if e.session == s && e.body.Some? then [e.body.value] else []
  {
  }

  /** Taking the oldest pending message and putting its run at the back of the queue. */
  lemma TakeKeeps(st: State, s: SessionId)
    requires Ledger(st, st.queue) && At(st.pending, s) != []
    ensures var (taken, e) := Take(st, s); Ledger(taken, st.queue + [e])
  {
    hide Balanced, Bodies;
    var (taken, e) := Take(st, s);
    assert FreshIds(taken);
    hide FreshIds;
    forall t
      ensures AccountOk(taken, st.queue + [e], t)
    {
      assert AccountOk(st, st.queue, t);
      BodiesConcat(st.queue, [e], t);
      SingleBody(e, t);
      if t == s {
        BalancedEnqueue(At(st.accepted, s), At(st.transcript, s), Bodies(st.queue, s), At(st.pending, s), At(st.discarded, s));
      } else {
        assert Bodies(st.queue, t) + [] == Bodies(st.queue, t);
      }
    }
  }

  lemma FirstBody(e: Entry, queue: seq<Entry>, s: SessionId)
    ensures Bodies([e] + queue, s) == (if e.session == s && e.body.Some? then [e.body.value] else []) + Bodies(queue, s)
  {
    assert ([e] + queue)[1..] == queue;
  }

  /** Starting the entry at the front of the queue. */
  lemma StartKeeps(st: State, e: Entry)
    requires Ledger(st, [e] + st.queue)
    ensures Ledger(Start(st, e), st.queue)
  {
    hide Balanced, Bodies;
    var next := Start(st, e);
    assert FreshIds(next);
    hide FreshIds;
    forall t
      ensures AccountOk(next, st.queue, t)
    {
      assert AccountOk(st, [e] + st.queue, t);
      FirstBody(e, st.queue, t);
      if t == e.session && e.body.Some? {
        BalancedStart(At(st.accepted, t), At(st.transcript, t), Bodies([e] + st.queue, t), At(st.pending, t), At(st.discarded, t));
        assert Bodies([e] + st.queue, t)[1..] == Bodies(st.queue, t);
      } else {
        assert [] + Bodies(st.queue, t) == Bodies(st.queue, t);
      }
    }
  }

  lemma DispatchKeeps(cfg: Config, st: State, e: Entry)
    requires Ledger(st, st.queue + [e])
    requires |st.active| < cfg.maxConcurrent ==> st.queue == []
    ensures Ledger(Dispatch(cfg, st, e), Dispatch(cfg, st, e).queue)
  {
    if |st.active| < cfg.maxConcurrent {
      assert [e] + st.queue == st.queue + [e];
      StartKeeps(st, e);
    } else {
      SameAccounts(st, Enqueue(st, e), st.queue + [e]);
    }
  }

  lemma {:induction false} DrainKeeps(cfg: Config, st: State)
    requires Ledger(st, st.queue)
    ensures Ledger(Drain(cfg, st), Drain(cfg, st).queue)
    decreases |st.queue|
  {
    if st.queue != [] && |st.active| < cfg.maxConcurrent {
      var popped := st.(queue := st.queue[1..]);
      assert [st.queue[0]] + popped.queue == st.queue;
      SameAccounts(st, popped, st.queue);
      StartKeeps(popped, st.queue[0]);
      DrainKeeps(cfg, Start(popped, st.queue[0]));
    }
  }

  /** The account only looks at the message fields. */
  lemma SameAccounts(a: State, b: State, queue: seq<Entry>)
    requires Ledger(a, queue)
    requires b.accepted == a.accepted && b.transcript == a.transcript && b.pending == a.pending
    requires b.discarded == a.discarded && b.nextMessage == a.nextMessage
    ensures Ledger(b, queue)
  {
    hide Balanced, Bodies;
    forall t
      ensures AccountOk(b, queue, t)
    {
      assert AccountOk(a, queue, t);
    }
  }

  lemma SettleKeeps(cfg: Config, st: State, s: SessionId, run: nat)
    requires Ledger(st, st.queue)
    ensures Ledger(Settle(cfg, st, s, run), Settle(cfg, st, s, run).queue)
  {
    var stopped := SetStatus(st, s, if QueueHeld(st, s) then Held else Idle).(stopped := st.stopped + [run]);
    SameAccounts(st, stopped, st.queue);
    DrainKeeps(cfg, stopped);
  }

  lemma HandOverKeeps(st: State, s: SessionId)
    requires Ledger(st, st.queue)
    ensures Ledger(HandOver(st, s), HandOver(st, s).queue)
  {
    if At(st.pending, s) != [] && s !in st.held && s !in st.unreachable {
      TakeKeeps(st, s);
      var (taken, e) := Take(st, s);
      SameAccounts(taken, Enqueue(taken, e), st.queue + [e]);
    }
  }

  lemma {:induction false} StopQueueKeeps(st: State, rest: seq<Entry>, target: Option<SessionId>)
    requires Ledger(st, st.queue + rest)
    ensures Ledger(StopQueue(st, rest, target), StopQueue(st, rest, target).queue)
    decreases |rest|
  {
    if rest == [] {
      assert st.queue + rest == st.queue;
    } else if Targets(target, rest[0].session) {
      DropKeeps(st, rest);
      StopQueueKeeps(StopQueued(st, rest[0]), rest[1..], target);
    } else {
      assert st.queue + [rest[0]] + rest[1..] == st.queue + rest;
      var kept := st.(queue := st.queue + [rest[0]]);
      SameAccounts(st, kept, st.queue + rest);
      StopQueueKeeps(kept, rest[1..], target);
    }
  }

  lemma DropKeeps(st: State, rest: seq<Entry>)
    requires rest != [] && Ledger(st, st.queue + rest)
    ensures Ledger(StopQueued(st, rest[0]), st.queue + rest[1..])
  {
    hide Balanced, Bodies;
    var e := rest[0];
    var next := StopQueued(st, e);
    assert FreshIds(next);
    forall t
      ensures AccountOk(next, st.queue + rest[1..], t)
    {
      assert AccountOk(st, st.queue + rest, t);
      assert rest == [e] + rest[1..];
      BodiesConcat(st.queue, rest, t);
      FirstBody(e, rest[1..], t);
      BodiesConcat(st.queue, rest[1..], t);
      if t == e.session && e.body.Some? {
        AtMostOnce(At(st.accepted, t), e.body.value);
        assert Bodies(st.queue, t) + ([e.body.value] + Bodies(rest[1..], t)) == Bodies(st.queue, t) + [e.body.value] + Bodies(rest[1..], t);
        BalancedDrop(At(st.accepted, t), At(st.transcript, t), Bodies(st.queue, t), e.body.value, Bodies(rest[1..], t), At(st.pending, t), At(st.discarded, t));
      } else {
        assert [] + Bodies(rest[1..], t) == Bodies(rest[1..], t);
      }
    }
  }

  lemma StopKeeps(st: State, order: seq<SessionId>, target: Option<SessionId>, reason: SessionId -> string)
    requires Ledger(st, st.queue)
    ensures Ledger(Stop(st, order, target, reason), Stop(st, order, target, reason).queue)
  {
    Runs.StopEachFrame(st, order, target, reason);
    var marked := StopEach(st, order, target, reason);
    SameAccounts(st, marked.(queue := []), st.queue);
    assert [] + marked.queue == marked.queue;
    StopQueueKeeps(marked.(queue := []), marked.queue, target);
  }

  lemma ReclaimKeeps(cfg: Config, st: State, s: SessionId)
    requires Ledger(st, st.queue) && Runs.Capacity(cfg, st) && At(st.pending, s) != []
    ensures var (taken, e) := Take(st, s);
      Ledger(Dispatch(cfg, taken, e), Dispatch(cfg, taken, e).queue)
  {
    TakeKeeps(st, s);
    var (taken, e) := Take(st, s);
    DispatchKeeps(cfg, taken, e);
  }

  lemma {:induction false} ReleaseKeeps(cfg: Config, st: State, order: seq<SessionId>, onModel: set<SessionId>)
    requires Ledger(st, st.queue) && Runs.Safe(cfg, st)
    ensures Ledger(Release(cfg, st, order, onModel), Release(cfg, st, order, onModel).queue)
    decreases |order|
  {
    if order != [] {
      var s := order[0];
      if s in st.unreachable && s in onModel {
        var reachable := st.(unreachable := st.unreachable - {s});
        SameAccounts(st, reachable, st.queue);
        if !(At(st.pending, s) == [] || s in st.held || s in st.active) {
          ReclaimKeeps(cfg, reachable, s);
        }
        Runs.ReleaseOneKeeps(cfg, st, s);
        ReleaseKeeps(cfg, ReleaseOne(cfg, st, s), order[1..], onModel);
      } else {
        ReleaseKeeps(cfg, st, order[1..], onModel);
      }
    }
  }

  lemma SubmitKeeps(cfg: Config, st: State, s: SessionId, text: string, open: bool, prepared: bool)
    requires Ledger(st, st.queue) && Runs.Capacity(cfg, st)
    ensures var next := Submit(cfg, st, s, text, open, prepared).0; Ledger(next, next.queue)
  {
    if open && prepared {
      WaitKeeps(st, st.queue, s, text);
      var waiting := Wait(st, s, text);
      if s in st.unreachable {
        SameAccounts(waiting, SetStatus(waiting, s, Held), st.queue);
      } else if s in st.held {
        var lifted := waiting.(held := st.held - {s});
        SameAccounts(waiting, lifted, st.queue);
        ReclaimKeeps(cfg, lifted, s);
      } else if !(s in st.active || IsRunning(st, s)) {
        DirectKeeps(st, st.queue, s, text);
        BodilessKeeps(AppendDirect(st, s, text), Entry(s, AppendDirect(st, s, text).ids, None));
        DispatchKeeps(cfg, AppendDirect(st, s, text), Entry(s, AppendDirect(st, s, text).ids, None));
      }
    }
  }

  lemma BodilessKeeps(st: State, e: Entry)
    requires Ledger(st, st.queue) && e.body.None?
    ensures Ledger(st, st.queue + [e])
  {
    hide Balanced, Bodies, FreshIds;
    forall t
      ensures AccountOk(st, st.queue + [e], t)
    {
      assert AccountOk(st, st.queue, t);
      BodiesConcat(st.queue, [e], t);
      SingleBody(e, t);
      assert Bodies(st.queue, t) + [] == Bodies(st.queue, t);
    }
  }

  lemma FinishKeeps(cfg: Config, st: State, s: SessionId, run: nat, reason: string)
    requires Ledger(st, st.queue)
    ensures Ledger(Finish(cfg, st, s, run, reason), Finish(cfg, st, s, run, reason).queue)
  {
    if Owns(st, s, run) {
      var freed := st.(
        active := st.active - {s},
        unreachable := if FinalReason(st.active[s], reason) == "model_unreachable" then st.unreachable + {s} else st.unreachable);
      SameAccounts(st, freed, st.queue);
      HandOverKeeps(freed, s);
      SettleKeeps(cfg, HandOver(freed, s), s, run);
    }
  }

  lemma NextKeeps(cfg: Config, st: State, step: Step)
    requires Ledger(st, st.queue) && Runs.Safe(cfg, st)
    ensures Ledger(Next(cfg, st, step), Next(cfg, st, step).queue)
  {
    match step
    case DoSubmit(s, text, open, prepared) => SubmitKeeps(cfg, st, s, text, open, prepared);
    case DoFinish(s, run, reason) => FinishKeeps(cfg, st, s, run, reason);
    case DoForceFinish(s, run) =>
      if Owns(st, s, run) {
        SameAccounts(st, st.(active := st.active - {s}), st.queue);
        SettleKeeps(cfg, st.(active := st.active - {s}), s, run);
      }
    case DoStop(order, target, reason) => StopKeeps(st, order, target, reason);
    case DoRelease(order, onModel) => ReleaseKeeps(cfg, st, order, onModel);
    case DoHoldModel(s) => SameAccounts(st, HoldModel(st, s), st.queue);
    case DoSetStatus(s, value) => SameAccounts(st, SetStatus(st, s, value), st.queue);
  }

  lemma {:induction false} EveryRunBalances(cfg: Config, steps: seq<Step>)
    requires cfg.maxConcurrent >= 1
    ensures Ledger(After(cfg, steps), After(cfg, steps).queue)
  {
    if steps != [] {
      var before := steps[..|steps| - 1];
      EveryRunBalances(cfg, before);
      Runs.EveryRunIsSafe(cfg, before);
      NextKeeps(cfg, After(cfg, before), steps[|steps| - 1]);
    }
  }

  /** In how many places of session `s` the message `m` is. */
  function Places(st: State, s: SessionId, m: Message): nat {
    multiset(Messages(At(st.transcript, s)))[m] + multiset(Bodies(st.queue, s))[m]
    + multiset(At(st.pending, s))[m] + multiset(At(st.discarded, s))[m]
  }

  /**
    After every run of the scheduler, an accepted message of `s` is in exactly one place, and it is in
    a place of its own session only; so it entered the transcript at most once.
   */
  lemma ExactlyOnePlace(cfg: Config, steps: seq<Step>, s: SessionId, m: Message, t: SessionId)
    requires cfg.maxConcurrent >= 1
    requires m in Messages(At(After(cfg, steps).accepted, s))
    ensures Places(After(cfg, steps), t, m) == if t == s then 1 else 0
  {
    EveryRunBalances(cfg, steps);
    var st := After(cfg, steps);
    assert AccountOk(st, st.queue, t);
    AtMostOnce(At(st.accepted, t), m);
    if t != s {
      assert m !in Messages(At(st.accepted, t));
    }
  }

  /**
    After every run, the waiting messages of a session that Stop did not drop are, in the order they
    were submitted: those in the transcript, then the queued bodies, then the pending list.
   */
  lemma SubmissionOrder(cfg: Config, steps: seq<Step>, s: SessionId)
    requires cfg.maxConcurrent >= 1
    ensures var st := After(cfg, steps);
      Survivors(Waits(At(st.accepted, s)), At(st.discarded, s))
      == Waits(At(st.transcript, s)) + Bodies(st.queue, s) + At(st.pending, s)
  {
    EveryRunBalances(cfg, steps);
    assert AccountOk(After(cfg, steps), After(cfg, steps).queue, s);
  }
}
