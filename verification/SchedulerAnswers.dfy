/**
  What each section of the scheduler does, said on the state before it: what becomes of the message that was
  submitted, which runs a completion starts, whom a stop reaches and whom a release wakes.
 */
module SchedulerAnswers {
  import opened Prelude
  import opened SchedulerSpec
  import Runs = SchedulerRuns
  import Holds = SchedulerHolds
  import Messages = SchedulerMessages

  // ----- Submit ---------------------------------------------------------------------------------------

  /** A message for the session has to wait. */
  predicate MustWait(st: State, s: SessionId) {
    s in st.unreachable || s in st.held || s in st.active || StatusOf(st, s) != Idle
  }

  /** The session is waiting for its model, or busy without being held: a message joins its pending list. */
  predicate JoinsPending(st: State, s: SessionId) {
    s in st.unreachable || (s !in st.held && MustWait(st, s))
  }

  predicate TextPending(st: State, s: SessionId, text: string) {
    exists i :: 0 <= i < |At(st.pending, s)| && At(st.pending, s)[i].text == text
  }

  /** The same text is already pending and takes this one's place. */
  predicate Absorbed(st: State, s: SessionId, text: string) {
    JoinsPending(st, s) && TextPending(st, s, text)
  }

  predicate QueueFull(cfg: Config, st: State, s: SessionId) {
    JoinsPending(st, s) && s !in st.unreachable && cfg.queueDepth > 0 && |At(st.pending, s)| >= cfg.queueDepth
  }

  /** The one-based position of the first pending message with this text. */
  ghost predicate FirstPending(st: State, s: SessionId, text: string, position: nat) {
    && 1 <= position <= |At(st.pending, s)| && At(st.pending, s)[position - 1].text == text
    && forall i :: 0 <= i < position - 1 ==> At(st.pending, s)[i].text != text
  }

  lemma {:induction false} IdenticalMeans(waiting: seq<Message>, text: string)
    ensures var p := IdenticalPosition(waiting, text);
      if p == 0 then forall i :: 0 <= i < |waiting| ==> waiting[i].text != text
      else p <= |waiting| && waiting[p - 1].text == text && forall i :: 0 <= i < p - 1 ==> waiting[i].text != text
  {
    if waiting != [] && waiting[0].text != text {
      IdenticalMeans(waiting[1..], text);
      assert forall i :: 0 <= i < |waiting| - 1 ==> waiting[1..][i] == waiting[i + 1];
    }
  }

  /** The entry got a free slot, and its body entered the transcript; or it is the last one in the queue. */
  ghost predicate Dispatched(cfg: Config, st: State, next: State, e: Entry) {
    if |st.active| < cfg.maxConcurrent then
      && StatusOf(next, e.session) == Running
      && next.active == st.active[e.session := Active(e.run, "")] && next.queue == st.queue && next.started == st.started + [e.run]
      && (e.body.Some? ==> At(next.transcript, e.session) == At(st.transcript, e.session) + [Line(e.body.value, true)])
    else
      && StatusOf(next, e.session) == Queued
      && next.active == st.active && next.queue == st.queue + [e] && next.started == st.started && next.transcript == st.transcript
  }

  /** Exactly this line was accepted for the session, and nothing for any other. */
  ghost predicate AcceptedLine(st: State, next: State, s: SessionId, line: Line) {
    && At(next.accepted, s) == At(st.accepted, s) + [line]
    && (forall t :: t != s ==> At(next.accepted, t) == At(st.accepted, t))
    && next.nextMessage == st.nextMessage + 1
  }

  /** The answer to a message that is accepted, and where the message is then. */
  ghost predicate Placed(cfg: Config, st: State, next: State, s: SessionId, m: Message, outcome: Outcome) {
    var waiting := At(st.pending, s) + [m];
    if JoinsPending(st, s) then
      && outcome == Waiting(|waiting|) && At(next.pending, s) == waiting && next.active == st.active && next.queue == st.queue
      && StatusOf(next, s) == if s in st.unreachable then Held else StatusOf(st, s)
    else if s in st.held then
      && outcome == Waiting(|waiting|) && s !in next.held && At(next.pending, s) == waiting[1..]
      && Dispatched(cfg, st, next, Entry(s, st.ids + 1, Some(waiting[0])))
    else
      && At(next.pending, s) == At(st.pending, s)
      && Dispatched(cfg, st.(transcript := Push(st.transcript, s, Line(m, false))), next, Entry(s, st.ids + 1, None))
      && Line(m, false) in At(next.transcript, s)
      && outcome == if |st.active| < cfg.maxConcurrent then StartedRun(st.ids + 1) else QueuedRun(st.ids + 1, |next.queue|)
  }

  /**
    What a submission does.  It is turned away without a trace if the session is closed, if the same text is
    pending where it would have to wait (and then that position is the answer), if the pending list is full,
    or if no message could be made of it.  Otherwise exactly the text submitted is accepted, and it is where
    `Placed` says.
   */
  ghost predicate Answers(cfg: Config, st: State, s: SessionId, text: string, open: bool, prepared: bool, next: State, outcome: Outcome) {
    if !open then next == st && outcome == Rejected
    else if Absorbed(st, s, text) then next == st && outcome.Duplicate? && FirstPending(st, s, text, outcome.position)
    else if QueueFull(cfg, st, s) || !prepared then next == st && outcome == Rejected
    else
      var m := Message(st.nextMessage, text);
      AcceptedLine(st, next, s, Line(m, MustWait(st, s))) && Placed(cfg, st, next, s, m, outcome)
  }

  lemma PendingAnswers(cfg: Config, st: State, s: SessionId, text: string, prepared: bool)
    requires JoinsPending(st, s)
    ensures var (next, outcome) := Submit(cfg, st, s, text, true, prepared); Answers(cfg, st, s, text, true, prepared, next, outcome)
  {
    IdenticalMeans(At(st.pending, s), text);
  }

  lemma HeldAnswers(cfg: Config, st: State, s: SessionId, text: string, prepared: bool)
    requires s !in st.unreachable && s in st.held
    ensures var (next, outcome) := Submit(cfg, st, s, text, true, prepared); Answers(cfg, st, s, text, true, prepared, next, outcome)
  {
    if prepared {
      var (taken, e) := Take(Wait(st, s, text).(held := st.held - {s}), s);
      DispatchMeans(cfg, taken, e);
      hide Dispatch;
    }
  }

  lemma IdleAnswers(cfg: Config, st: State, s: SessionId, text: string, prepared: bool)
    requires !MustWait(st, s)
    ensures var (next, outcome) := Submit(cfg, st, s, text, true, prepared); Answers(cfg, st, s, text, true, prepared, next, outcome)
  {
    if prepared {
      var direct := AppendDirect(st, s, text);
      assert direct.transcript == Push(st.transcript, s, Line(Message(st.nextMessage, text), false));
      DispatchMeans(cfg, direct, Entry(s, direct.ids, None));
      hide Dispatch;
    }
  }

  lemma DispatchMeans(cfg: Config, st: State, e: Entry)
    ensures Dispatched(cfg, st, Dispatch(cfg, st, e), e)
    ensures var next := Dispatch(cfg, st, e);
      && next.accepted == st.accepted && next.nextMessage == st.nextMessage && next.pending == st.pending && next.held == st.held
      && (e.body.None? ==> next.transcript == st.transcript)
  {
  }

  lemma SubmitAnswers(cfg: Config, st: State, s: SessionId, text: string, open: bool, prepared: bool)
    ensures var (next, outcome) := Submit(cfg, st, s, text, open, prepared); Answers(cfg, st, s, text, open, prepared, next, outcome)
  {
    if open {
      if JoinsPending(st, s) {
        PendingAnswers(cfg, st, s, text, prepared);
      } else if s in st.held {
        HeldAnswers(cfg, st, s, text, prepared);
      } else {
        IdleAnswers(cfg, st, s, text, prepared);
      }
      hide Answers, Submit;
    }
  }

  // ----- finish and forceFinish ----------------------------------------------------------------------

  /** The first `n` runs of a queue were started, in order; the rest stays because no slot is free. */
  ghost predicate Drained(cfg: Config, queue: seq<Entry>, started: seq<int>, next: State, n: nat) {
    && n <= |queue| && next.queue == queue[n..] && next.started == started + Runs.RunIds(queue[..n])
    && (n == |queue| || |next.active| >= cfg.maxConcurrent)
  }

  /** Everything that starting runs leaves alone. */
  ghost predicate SameButRuns(st: State, next: State) {
    next == st.(queue := next.queue, started := next.started, active := next.active, status := next.status, transcript := next.transcript)
  }

  lemma {:induction false} DrainLeaves(cfg: Config, st: State)
    ensures SameButRuns(st, Drain(cfg, st))
    decreases |st.queue|
  {
    if st.queue != [] && |st.active| < cfg.maxConcurrent {
      DrainLeaves(cfg, Start(st.(queue := st.queue[1..]), st.queue[0]));
    }
  }

  /** A session without a run in the end is shown as before. */
  lemma {:induction false} DrainStatus(cfg: Config, st: State, t: SessionId)
    ensures t !in Drain(cfg, st).active ==> t !in st.active && StatusOf(Drain(cfg, st), t) == StatusOf(st, t)
    decreases |st.queue|
  {
    if st.queue != [] && |st.active| < cfg.maxConcurrent {
      DrainStatus(cfg, Start(st.(queue := st.queue[1..]), st.queue[0]), t);
    }
  }

  lemma DrainedMore(cfg: Config, queue: seq<Entry>, started: seq<int>, next: State, n: nat)
    requires queue != [] && Drained(cfg, queue[1..], started + [queue[0].run], next, n)
    ensures Drained(cfg, queue, started, next, n + 1)
  {
    var e, rest := queue[0], queue[1..];
    assert queue[..n + 1] == [e] + rest[..n] && queue[n + 1..] == rest[n..];
    var one: seq<int> := [e.run];
    assert Runs.RunIds(queue[..n + 1]) == one + Runs.RunIds(rest[..n]);
    Associative(started, one, Runs.RunIds(rest[..n]));
  }

  lemma {:induction false} DrainMeans(cfg: Config, st: State) returns (n: nat)
    ensures Drained(cfg, st.queue, st.started, Drain(cfg, st), n)
    decreases |st.queue|
  {
    n := 0;
    if st.queue != [] && |st.active| < cfg.maxConcurrent {
      var begun := Start(st.(queue := st.queue[1..]), st.queue[0]);
      n := DrainMeans(cfg, begun);
      hide Drained;
      DrainedMore(cfg, st.queue, st.started, Drain(cfg, begun), n);
      n := n + 1;
    } else {
      assert st.queue[0..] == st.queue && Runs.RunIds(st.queue[..0]) == [] && st.started + [] == st.started;
    }
  }

  /** The oldest pending message is handed over at the end of the run. */
  predicate HandsOver(st: State, s: SessionId, unreachable: set<SessionId>) {
    At(st.pending, s) != [] && s !in st.held && s !in unreachable
  }

  /** What the end of a run leaves of its session and of everybody else, apart from the runs that are started. */
  ghost predicate Ended(st: State, next: State, s: SessionId, run: nat, unreachable: set<SessionId>, hands: bool)
    requires hands ==> At(st.pending, s) != []
  {
    && next.unreachable == unreachable && next.held == st.held && next.stopped == st.stopped + [run]
    && At(next.pending, s) == (if hands then At(st.pending, s)[1..] else At(st.pending, s))
    && (forall t :: t != s ==> At(next.pending, t) == At(st.pending, t))
    && next.accepted == st.accepted && next.discarded == st.discarded
    && (s !in next.active ==> StatusOf(next, s) == if (s in next.held || s in next.unreachable) && At(next.pending, s) != [] then Held else Idle)
  }

  /** What the end of a run does up to the draining. */
  lemma SettleMeans(cfg: Config, st: State, s: SessionId, run: nat) returns (n: nat)
    ensures var next := Settle(cfg, st, s, run);
      && Drained(cfg, st.queue, st.started, next, n)
      && next.unreachable == st.unreachable && next.held == st.held && next.pending == st.pending
      && next.stopped == st.stopped + [run] && next.accepted == st.accepted && next.discarded == st.discarded
      && (s !in next.active ==> StatusOf(next, s) == if (s in st.held || s in st.unreachable) && At(st.pending, s) != [] then Held else Idle)
  {
    var stopped := SetStatus(st, s, if QueueHeld(st, s) then Held else Idle).(stopped := st.stopped + [run]);
    DrainLeaves(cfg, stopped);
    DrainStatus(cfg, stopped, s);
    hide Drain, Drained;
    n := DrainMeans(cfg, stopped);
  }

  /**
    The end of a run: it is reported stopped, the session waits for its model exactly if that is the final
    reason, where a reason recorded by Stop wins; its oldest pending message joins the end of the queue
    unless it is held or waits for its model; and runs are started from the front of the queue while slots
    are free.  The completion of any other run changes nothing.
   */
  lemma FinishMeans(cfg: Config, st: State, s: SessionId, run: nat, reason: string) returns (n: nat)
    ensures var next := Finish(cfg, st, s, run, reason);
      if !(s in st.active && st.active[s].run == run) then next == st
      else
        var final := if st.active[s].stopReason != "" then st.active[s].stopReason else reason;
        var unreachable := if final == "model_unreachable" then st.unreachable + {s} else st.unreachable;
        var hands := HandsOver(st, s, unreachable);
        && (hands ==> At(st.pending, s) != [])
        && Ended(st, next, s, run, unreachable, hands)
        && Drained(cfg, if hands then st.queue + [Entry(s, st.ids + 1, Some(At(st.pending, s)[0]))] else st.queue, st.started, next, n)
  {
    n := 0;
    if Owns(st, s, run) {
      hide Settle, Drained, HandOver, Ended, HandsOver;
      n := FinishOwned(cfg, st, s, run, if FinalReason(st.active[s], reason) == "model_unreachable" then st.unreachable + {s} else st.unreachable);
    }
  }

  /** The end of the active run of `s`, once it is settled who waits for a model. */
  lemma FinishOwned(cfg: Config, st: State, s: SessionId, run: nat, unreachable: set<SessionId>) returns (n: nat)
    ensures var next := Settle(cfg, HandOver(st.(active := st.active - {s}, unreachable := unreachable), s), s, run);
      var hands := HandsOver(st, s, unreachable);
      && (hands ==> At(st.pending, s) != [])
      && Ended(st, next, s, run, unreachable, hands)
      && Drained(cfg, if hands then st.queue + [Entry(s, st.ids + 1, Some(At(st.pending, s)[0]))] else st.queue, st.started, next, n)
  {
    var freed := st.(active := st.active - {s}, unreachable := unreachable);
    var handed := HandOver(freed, s);
    hide Settle, Drained, HandOver, Ended, At;
    HandOverMeans(freed, s);
    n := SettleMeans(cfg, handed, s, run);
    EndedAfter(st, handed, Settle(cfg, handed, s, run), s, run, unreachable, HandsOver(st, s, unreachable));
  }

  lemma EndedAfter(st: State, handed: State, next: State, s: SessionId, run: nat, unreachable: set<SessionId>, hands: bool)
    requires hands ==> At(st.pending, s) != []
    requires handed.unreachable == unreachable && handed.held == st.held && handed.stopped == st.stopped
    requires handed.accepted == st.accepted && handed.discarded == st.discarded
    requires At(handed.pending, s) == (if hands then At(st.pending, s)[1..] else At(st.pending, s))
    requires forall t :: t != s ==> At(handed.pending, t) == At(st.pending, t)
    requires next.unreachable == handed.unreachable && next.held == handed.held && next.pending == handed.pending
    requires next.stopped == handed.stopped + [run] && next.accepted == handed.accepted && next.discarded == handed.discarded
    requires s !in next.active ==> StatusOf(next, s) == if (s in handed.held || s in handed.unreachable) && At(handed.pending, s) != [] then Held else Idle
    ensures Ended(st, next, s, run, unreachable, hands)
  {
    hide At, StatusOf;
  }

  lemma HandOverMeans(st: State, s: SessionId)
    ensures var next := HandOver(st, s); var hands := HandsOver(st, s, st.unreachable);
      && next.queue == (if hands then st.queue + [Entry(s, st.ids + 1, Some(At(st.pending, s)[0]))] else st.queue)
      && At(next.pending, s) == (if hands then At(st.pending, s)[1..] else At(st.pending, s))
      && (forall t :: t != s ==> At(next.pending, t) == At(st.pending, t))
      && next == st.(queue := next.queue, pending := next.pending, ids := next.ids, status := next.status)
  {
  }

  /** A forced finish does the same without handing anything over, and marks nothing unreachable. */
  lemma ForceFinishMeans(cfg: Config, st: State, s: SessionId, run: nat) returns (n: nat)
    ensures var next := ForceFinish(cfg, st, s, run);
      if !(s in st.active && st.active[s].run == run) then next == st
      else Ended(st, next, s, run, st.unreachable, false) && Drained(cfg, st.queue, st.started, next, n)
  {
    n := 0;
    if Owns(st, s, run) {
      hide Settle, Drained;
      n := SettleMeans(cfg, st.(active := st.active - {s}), s, run);
    }
  }

  // ----- Stop ------------------------------------------------------------------------------------------

  /** The entries of a queue that a stop drops, or that it keeps. */
  function Part(queue: seq<Entry>, target: Option<SessionId>, dropped: bool): seq<Entry> {
    Filter(queue, (e: Entry) => Targets(target, e.session) == dropped)
  }

  lemma PartStep(e: Entry, rest: seq<Entry>, target: Option<SessionId>, dropped: bool)
    ensures Part([e] + rest, target, dropped) == (if Targets(target, e.session) == dropped then [e] else []) + Part(rest, target, dropped)
  {
    assert ([e] + rest)[1..] == rest;
  }

  /** The first loop of a stop, seen from one session that it reaches, or does not. */
  ghost predicate RunStopped(st: State, next: State, hit: bool, reason: string, t: SessionId) {
    && next.active.Keys == st.active.Keys
    && (t in st.active ==> next.active[t] == if hit then st.active[t].(stopReason := reason) else st.active[t])
    && (t in next.held <==> t in st.held || (hit && At(st.pending, t) != []))
    && StatusOf(next, t) == (if hit then Stopping else StatusOf(st, t))
    && next == st.(active := next.active, held := next.held, status := next.status)
  }

  lemma {:induction false} StopEachMeans(st: State, order: seq<SessionId>, target: Option<SessionId>, reason: SessionId -> string, t: SessionId)
    ensures RunStopped(st, StopEach(st, order, target, reason), t in order && Targets(target, t) && t in st.active, reason(t), t)
    decreases |order|
  {
    if order != [] {
      var s, rest := order[0], order[1..];
      assert t in order <==> t == s || t in rest;
      var next := StopEach(st, order, target, reason);
      hide StopActive, RunStopped;
      if Targets(target, s) && s in st.active {
        var one := StopActive(st, s, reason(s));
        StopEachMeans(one, rest, target, reason, t);
        StopOneMore(st, s, reason(s), next, t in rest && Targets(target, t) && t in one.active, reason(t), t);
      } else {
        StopEachMeans(st, rest, target, reason, t);
      }
    }
  }

  lemma StopOneMore(st: State, s: SessionId, given: string, next: State, later: bool, reason: string, t: SessionId)
    requires s in st.active && RunStopped(StopActive(st, s, given), next, later, reason, t) && (s == t ==> given == reason)
    ensures RunStopped(st, next, later || s == t, reason, t) && StopActive(st, s, given).active.Keys == st.active.Keys
  {
    StopActiveMeans(st, s, given, t);
    hide StopActive, At, StatusOf;
  }

  lemma StopActiveMeans(st: State, s: SessionId, reason: string, t: SessionId)
    requires s in st.active
    ensures var next := StopActive(st, s, reason);
      && next.active == st.active[s := st.active[s].(stopReason := reason)]
      && (t in next.held <==> t in st.held || (s == t && At(st.pending, t) != []))
      && StatusOf(next, t) == (if s == t then Stopping else StatusOf(st, t))
      && next == st.(active := next.active, held := next.held, status := next.status)
  {
  }

  /** The second loop of a stop, seen from one session: what it keeps, drops, reports, holds and shows. */
  ghost predicate QueueStopped(st: State, next: State, kept: seq<Entry>, dropped: seq<Entry>, t: SessionId) {
    && next.queue == st.queue + kept && next.stopped == st.stopped + Runs.RunIds(dropped)
    && At(next.discarded, t) == At(st.discarded, t) + Messages.Bodies(dropped, t)
    && (t in next.held <==> t in st.held || (Holds.InQueue(dropped, t) && At(st.pending, t) != []))
    && StatusOf(next, t) == (if !Holds.InQueue(dropped, t) then StatusOf(st, t) else if t in next.held then Held else Idle)
    && next == st.(queue := next.queue, stopped := next.stopped, discarded := next.discarded, held := next.held, status := next.status)
  }

  lemma {:induction false} StopQueueMeans(st: State, rest: seq<Entry>, target: Option<SessionId>, t: SessionId)
    ensures QueueStopped(st, StopQueue(st, rest, target), Part(rest, target, false), Part(rest, target, true), t)
    decreases |rest|
  {
    if rest == [] {
      assert st.queue + [] == st.queue && st.stopped + [] == st.stopped && At(st.discarded, t) + [] == At(st.discarded, t);
    } else {
      hide Part, QueueStopped, StopQueued;
      var e, more := rest[0], rest[1..];
      assert rest == [e] + more;
      PartStep(e, more, target, true);
      PartStep(e, more, target, false);
      var next, kept, dropped := StopQueue(st, rest, target), Part(more, target, false), Part(more, target, true);
      assert [] + kept == kept && [] + dropped == dropped;
      if Targets(target, e.session) {
        StopQueueMeans(StopQueued(st, e), more, target, t);
        DropStep(st, e, next, kept, dropped, t);
      } else {
        StopQueueMeans(st.(queue := st.queue + [e]), more, target, t);
        KeepStep(st, e, next, kept, dropped, t);
      }
    }
  }

  lemma KeepStep(st: State, e: Entry, next: State, kept: seq<Entry>, dropped: seq<Entry>, t: SessionId)
    requires QueueStopped(st.(queue := st.queue + [e]), next, kept, dropped, t)
    ensures QueueStopped(st, next, [e] + kept, dropped, t)
  {
    hide Holds.InQueue, Messages.Bodies, At, Runs.RunIds;
    Associative(st.queue, [e], kept);
  }

  lemma DropStep(st: State, e: Entry, next: State, kept: seq<Entry>, later: seq<Entry>, t: SessionId)
    requires QueueStopped(StopQueued(st, e), next, kept, later, t)
    ensures QueueStopped(st, next, kept, [e] + later, t)
  {
    Holds.InQueueCons(e, later, t);
    StopQueuedMeans(st, e, t);
    DropAdds(st, e, later, t);
    hide StopQueued, Holds.InQueue, Messages.Bodies, At, Runs.RunIds, StatusOf;
  }

  lemma StopQueuedMeans(st: State, e: Entry, t: SessionId)
    ensures var next := StopQueued(st, e);
      && next == st.(held := next.held, discarded := next.discarded, stopped := next.stopped, status := next.status)
      && (t in next.held <==> t in st.held || (e.session == t && At(st.pending, t) != []))
      && StatusOf(next, t) == (if e.session != t then StatusOf(st, t) else if t in next.held then Held else Idle)
  {
  }

  /** Dropping one entry, in front of those dropped later. */
  lemma DropAdds(st: State, e: Entry, later: seq<Entry>, t: SessionId)
    ensures var next := StopQueued(st, e);
      && next.stopped + Runs.RunIds(later) == st.stopped + Runs.RunIds([e] + later)
      && At(next.discarded, t) + Messages.Bodies(later, t) == At(st.discarded, t) + Messages.Bodies([e] + later, t)
  {
    StoppedAdds(st.stopped, e, later);
    BodiesAdd(At(st.discarded, t), e, later, t);
    hide Messages.Bodies, Runs.RunIds;
  }

  lemma StoppedAdds(stopped: seq<int>, e: Entry, later: seq<Entry>)
    ensures stopped + [e.run] + Runs.RunIds(later) == stopped + Runs.RunIds([e] + later)
  {
    var one: seq<int> := [e.run];
    assert Runs.RunIds([e] + later) == one + Runs.RunIds(later);
    Associative(stopped, one, Runs.RunIds(later));
  }

  lemma BodiesAdd(discarded: seq<Message>, e: Entry, later: seq<Entry>, t: SessionId)
    ensures discarded + (if e.session == t && e.body.Some? then [e.body.value] else []) + Messages.Bodies(later, t)
      == discarded + Messages.Bodies([e] + later, t)
    ensures discarded + [] == discarded
  {
    assert ([e] + later)[1..] == later;
    Associative(discarded, if e.session == t && e.body.Some? then [e.body.value] else [], Messages.Bodies(later, t));
  }

  /**
    A stop, for every order of walking all active runs: exactly the targeted active runs get its reason;
    exactly the targeted queue entries are dropped, reported stopped and their bodies discarded, and the
    others keep their order; exactly the targeted sessions with pending messages that had a run or an entry
    are held; pending lists and models are untouched.
   */
  lemma StopMeans(st: State, order: seq<SessionId>, target: Option<SessionId>, reason: SessionId -> string, t: SessionId)
    requires forall s :: s in st.active ==> s in order
    ensures var next := Stop(st, order, target, reason); var dropped := Part(st.queue, target, true);
      && next.active.Keys == st.active.Keys
      && (t in st.active ==> next.active[t] == if Targets(target, t) then st.active[t].(stopReason := reason(t)) else st.active[t])
      && next.queue == Part(st.queue, target, false) && next.stopped == st.stopped + Runs.RunIds(dropped)
      && At(next.discarded, t) == At(st.discarded, t) + Messages.Bodies(dropped, t)
      && (t in next.held <==> t in st.held || (At(st.pending, t) != [] && ((Targets(target, t) && t in st.active) || Holds.InQueue(dropped, t))))
      && StatusOf(next, t) == (if Holds.InQueue(dropped, t) then (if t in next.held then Held else Idle)
                               else if Targets(target, t) && t in st.active then Stopping else StatusOf(st, t))
      && next.pending == st.pending && next.unreachable == st.unreachable && next.accepted == st.accepted
      && next.transcript == st.transcript && next.started == st.started && next.ids == st.ids
  {
    StopEachMeans(st, order, target, reason, t);
    var marked := StopEach(st, order, target, reason);
    StopQueueMeans(marked.(queue := []), marked.queue, target, t);
    hide Part, StopEach, StopQueue, Holds.InQueue;
    assert [] + Part(st.queue, target, false) == Part(st.queue, target, false);
  }

  // ----- ReleaseModel ------------------------------------------------------------------------------------

  /** The release wakes this session: it waited for the model, has pending messages, and is neither held nor running. */
  predicate Woken(st: State, onModel: set<SessionId>, t: SessionId) {
    t in st.unreachable && t in onModel && At(st.pending, t) != [] && t !in st.held && t !in st.active
  }

  /** A run for this message was started, or waits in the queue with it. */
  ghost predicate HasRunFor(st: State, t: SessionId, m: Message) {
    || (t in st.active && At(st.transcript, t) != [] && Last(At(st.transcript, t)) == Line(m, true))
    || (exists i :: 0 <= i < |st.queue| && st.queue[i].session == t && st.queue[i].body == Some(m))
  }

  lemma ReleaseOther(cfg: Config, st: State, s: SessionId, t: SessionId)
    requires s != t
    ensures var next := ReleaseOne(cfg, st, s);
      && (t in next.unreachable <==> t in st.unreachable) && At(next.pending, t) == At(st.pending, t)
      && (t in next.active <==> t in st.active) && At(next.transcript, t) == At(st.transcript, t)
      && st.queue <= next.queue && next.held == st.held
  {
    if !(At(st.pending, s) == [] || s in st.held || s in st.active) {
      var reachable := st.(unreachable := st.unreachable - {s});
      TakeOther(reachable, s, t);
      var (taken, e) := Take(reachable, s);
      hide Dispatch, Take;
      DispatchOther(cfg, taken, e, t);
    }
  }

  lemma TakeOther(st: State, s: SessionId, t: SessionId)
    requires s != t && At(st.pending, s) != []
    ensures var (taken, e) := Take(st, s);
      At(taken.pending, t) == At(st.pending, t) && e.session == s && taken == st.(pending := taken.pending, ids := taken.ids)
  {
  }

  lemma DispatchOther(cfg: Config, st: State, e: Entry, t: SessionId)
    requires e.session != t
    ensures var next := Dispatch(cfg, st, e);
      && (t in next.active <==> t in st.active) && At(next.transcript, t) == At(st.transcript, t) && st.queue <= next.queue
      && next.unreachable == st.unreachable && next.pending == st.pending && next.held == st.held
  {
    if e.body.Some? {
      PushOther(st.transcript, e.session, Line(e.body.value, true), t);
    }
    hide At, Push;
  }

  lemma PushOther(m: map<SessionId, seq<Line>>, s: SessionId, line: Line, t: SessionId)
    requires s != t
    ensures At(Push(m, s, line), t) == At(m, t)
  {
  }

  lemma ReleaseSelf(cfg: Config, st: State, t: SessionId)
    requires t in st.unreachable
    ensures var next := ReleaseOne(cfg, st, t); var wakes := At(st.pending, t) != [] && t !in st.held && t !in st.active;
      && t !in next.unreachable && next.held == st.held
      && At(next.pending, t) == (if wakes then At(st.pending, t)[1..] else At(st.pending, t))
      && (wakes ==> HasRunFor(next, t, At(st.pending, t)[0]))
  {
    var next := ReleaseOne(cfg, st, t);
    if At(st.pending, t) != [] && t !in st.held && t !in st.active && next.queue != st.queue {
      assert next.queue[|st.queue|].session == t;
    }
  }

  lemma HasRunStays(a: State, b: State, t: SessionId, m: Message)
    requires HasRunFor(a, t, m) && a.queue <= b.queue && (t in a.active ==> t in b.active) && At(b.transcript, t) == At(a.transcript, t)
    ensures HasRunFor(b, t, m)
  {
    if i :| 0 <= i < |a.queue| && a.queue[i].session == t && a.queue[i].body == Some(m) {
      assert b.queue[i] == a.queue[i];
    }
  }

  lemma {:induction false} ReleaseWalk(cfg: Config, st: State, order: seq<SessionId>, onModel: set<SessionId>, t: SessionId)
    ensures var next := Release(cfg, st, order, onModel); var wakes := t in order && Woken(st, onModel, t);
      && (t in next.unreachable <==> t in st.unreachable && !(t in order && t in onModel)) && next.held == st.held
      && At(next.pending, t) == (if wakes then At(st.pending, t)[1..] else At(st.pending, t))
      && (wakes ==> HasRunFor(next, t, At(st.pending, t)[0]))
      && (t !in st.unreachable || t !in onModel || t !in order ==>
            (t in next.active <==> t in st.active) && At(next.transcript, t) == At(st.transcript, t))
      && st.queue <= next.queue
    decreases |order|
  {
    if order != [] {
      var s, rest := order[0], order[1..];
      assert t in order <==> t == s || t in rest;
      if s in st.unreachable && s in onModel {
        var one := ReleaseOne(cfg, st, s);
        ReleaseWalk(cfg, one, rest, onModel, t);
        ReleaseGrows(cfg, st, s);
        if s == t {
          ReleaseSelf(cfg, st, t);
          hide ReleaseOne, HasRunFor;
          if Woken(st, onModel, t) {
            HasRunStays(one, Release(cfg, one, rest, onModel), t, At(st.pending, t)[0]);
          }
        } else {
          ReleaseOther(cfg, st, s, t);
          hide ReleaseOne, HasRunFor;
        }
      } else {
        ReleaseWalk(cfg, st, rest, onModel, t);
      }
    }
  }

  lemma ReleaseGrows(cfg: Config, st: State, s: SessionId)
    ensures st.queue <= ReleaseOne(cfg, st, s).queue
  {
  }

  /**
    A release, for every order of walking all unreachable sessions: exactly the sessions on the model become
    reachable; each of them that has pending messages and is neither held nor running gets a run for the
    oldest one, which leaves its pending list; no other pending list, and no hold, changes.
   */
  lemma ReleaseMeans(cfg: Config, st: State, order: seq<SessionId>, onModel: set<SessionId>, t: SessionId)
    requires forall s :: s in st.unreachable ==> s in order
    ensures var next := Release(cfg, st, order, onModel);
      && (t in next.unreachable <==> t in st.unreachable && t !in onModel) && next.held == st.held
      && At(next.pending, t) == (if Woken(st, onModel, t) then At(st.pending, t)[1..] else At(st.pending, t))
      && (Woken(st, onModel, t) ==> HasRunFor(next, t, At(st.pending, t)[0]))
      && (t !in st.unreachable || t !in onModel ==> (t in next.active <==> t in st.active) && At(next.transcript, t) == At(st.transcript, t))
  {
    ReleaseWalk(cfg, st, order, onModel, t);
  }
}
