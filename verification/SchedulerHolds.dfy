/**
  Held and waiting sessions, over every run of the scheduler: a held session has pending messages,
  is not queued, and stays as it is until somebody submits to it; and as long as no forced finish and
  no foreign status write gets in the way, no session with pending messages is ever left without
  something that will dispatch it.
 */
module SchedulerHolds {
  import opened Prelude
  import opened SchedulerSpec
  import Runs = SchedulerRuns

  ghost predicate InQueue(queue: seq<Entry>, s: SessionId) {
    exists i :: 0 <= i < |queue| && queue[i].session == s
  }

  // ----- held sessions --------------------------------------------------------------------

  ghost predicate HeldOk(st: State) {
    forall s :: s in st.held ==> At(st.pending, s) != [] && !InQueue(st.queue, s)
  }

  lemma InQueueSnoc(queue: seq<Entry>, e: Entry, s: SessionId)
    ensures InQueue(queue + [e], s) <==> InQueue(queue, s) || e.session == s
  {
    var more := queue + [e];
    if InQueue(queue, s) {
      var i :| 0 <= i < |queue| && queue[i].session == s;
      assert more[i].session == s;
    }
    assert more[|queue|] == e;
  }

  lemma InQueueCons(e: Entry, queue: seq<Entry>, s: SessionId)
    ensures InQueue([e] + queue, s) <==> InQueue(queue, s) || e.session == s
  {
    var more := [e] + queue;
    if InQueue(queue, s) {
      var i :| 0 <= i < |queue| && queue[i].session == s;
      assert more[i + 1].session == s;
    }
    assert more[0] == e;
  }

  lemma InQueueConcat(a: seq<Entry>, b: seq<Entry>, s: SessionId)
    ensures InQueue(a + b, s) <==> InQueue(a, s) || InQueue(b, s)
  {
    if InQueue(a, s) {
      var i :| 0 <= i < |a| && a[i].session == s;
      assert (a + b)[i].session == s;
    }
    if InQueue(b, s) {
      var i :| 0 <= i < |b| && b[i].session == s;
      assert (a + b)[|a| + i].session == s;
    }
  }

  /** The session runs the same run as before. */
  ghost predicate Kept(a: State, b: State, s: SessionId) {
    s in a.active && s in b.active && b.active[s].run == a.active[s].run
  }

  lemma DispatchHeld(cfg: Config, st: State, e: Entry)
    requires HeldOk(st) && e.session !in st.held
    ensures HeldOk(Dispatch(cfg, st, e)) && Dispatch(cfg, st, e).held == st.held
    ensures Dispatch(cfg, st, e).pending == st.pending
    ensures forall t :: t != e.session && t in Dispatch(cfg, st, e).active ==> Kept(st, Dispatch(cfg, st, e), t)
  {
    forall s
      ensures InQueue(st.queue + [e], s) <==> InQueue(st.queue, s) || e.session == s
    {
      InQueueSnoc(st.queue, e, s);
    }
  }

  lemma {:induction false} DrainHeld(cfg: Config, st: State)
    requires HeldOk(st)
    ensures HeldOk(Drain(cfg, st)) && Drain(cfg, st).held == st.held && Drain(cfg, st).pending == st.pending
    ensures forall s :: !InQueue(st.queue, s) ==>
      (s in Drain(cfg, st).active ==> Kept(st, Drain(cfg, st), s)) && !InQueue(Drain(cfg, st).queue, s)
    decreases |st.queue|
  {
    if st.queue != [] && |st.active| < cfg.maxConcurrent {
      var popped := st.(queue := st.queue[1..]);
      assert [st.queue[0]] + popped.queue == st.queue;
      forall s
        ensures InQueue(st.queue, s) <==> InQueue(popped.queue, s) || st.queue[0].session == s
      {
        InQueueCons(st.queue[0], popped.queue, s);
      }
      DrainHeld(cfg, Start(popped, st.queue[0]));
    }
  }

  /** The part of "nothing but a Submit to it can dispatch it" that relates two states. */
  ghost predicate HeldFixed(a: State, b: State, s: SessionId) {
    && s in b.held
    && At(b.pending, s) == At(a.pending, s)
    && !InQueue(b.queue, s)
    && (s in b.active ==> Kept(a, b, s))
  }

  ghost predicate HeldStep(a: State, b: State) {
    HeldOk(b) && forall s :: s in a.held ==> HeldFixed(a, b, s)
  }

  lemma HandOverHeld(st: State, s: SessionId)
    requires HeldOk(st)
    ensures var next := HandOver(st, s);
      && HeldOk(next) && next.held == st.held && next.active == st.active
      && (forall t :: t != s ==> At(next.pending, t) == At(st.pending, t))
      && (s in st.held ==> At(next.pending, s) == At(st.pending, s))
  {
    if At(st.pending, s) != [] && s !in st.held && s !in st.unreachable {
      var (taken, e) := Take(st, s);
      forall t
        ensures InQueue(st.queue + [e], t) <==> InQueue(st.queue, t) || t == s
      {
        InQueueSnoc(st.queue, e, t);
      }
    }
  }

  lemma FinishHeld(cfg: Config, st: State, s: SessionId, run: nat, reason: string)
    requires HeldOk(st)
    ensures HeldStep(st, Finish(cfg, st, s, run, reason))
  {
    hide InQueue, HandOver;
    if Owns(st, s, run) {
      var freed := st.(
        active := st.active - {s},
        unreachable := if FinalReason(st.active[s], reason) == "model_unreachable" then st.unreachable + {s} else st.unreachable);
      HandOverHeld(freed, s);
      var handed := HandOver(freed, s);
      DrainHeld(cfg, SetStatus(handed, s, if QueueHeld(handed, s) then Held else Idle).(stopped := handed.stopped + [run]));
    }
  }

  lemma ForceFinishHeld(cfg: Config, st: State, s: SessionId, run: nat)
    requires HeldOk(st)
    ensures HeldStep(st, ForceFinish(cfg, st, s, run))
  {
    if Owns(st, s, run) {
      var freed := st.(active := st.active - {s});
      DrainHeld(cfg, SetStatus(freed, s, if QueueHeld(freed, s) then Held else Idle).(stopped := freed.stopped + [run]));
    }
  }

  /** Inside Stop a targeted session may be held while its queue entries are still to be dropped. */
  lemma {:induction false} StopEachHeld(st: State, order: seq<SessionId>, target: Option<SessionId>, reason: SessionId -> string)
    ensures var after := StopEach(st, order, target, reason);
      && st.held <= after.held
      && (forall s :: s in after.held ==> s in st.held || (Targets(target, s) && At(st.pending, s) != []))
    decreases |order|
  {
    if order != [] {
      var s := order[0];
      StopEachHeld(if Targets(target, s) && s in st.active then StopActive(st, s, reason(s)) else st, order[1..], target, reason);
    }
  }

  lemma {:induction false} StopQueueHeld(st: State, rest: seq<Entry>, target: Option<SessionId>)
    requires forall s :: s in st.held ==> At(st.pending, s) != [] && !InQueue(st.queue, s) && (InQueue(rest, s) ==> Targets(target, s))
    requires forall s :: Targets(target, s) ==> !InQueue(st.queue, s)
    ensures HeldOk(StopQueue(st, rest, target)) && st.held <= StopQueue(st, rest, target).held
    ensures StopQueue(st, rest, target).pending == st.pending && StopQueue(st, rest, target).active == st.active
    decreases |rest|
  {
    if rest != [] {
      var e := rest[0];
      assert [e] + rest[1..] == rest;
      forall s
        ensures InQueue(rest, s) <==> InQueue(rest[1..], s) || e.session == s
        ensures InQueue(st.queue + [e], s) <==> InQueue(st.queue, s) || e.session == s
      {
        InQueueCons(e, rest[1..], s);
        InQueueSnoc(st.queue, e, s);
      }
      if Targets(target, e.session) {
        StopQueueHeld(StopQueued(st, e), rest[1..], target);
      } else {
        StopQueueHeld(st.(queue := st.queue + [e]), rest[1..], target);
      }
    }
  }

  lemma StopHeld(st: State, order: seq<SessionId>, target: Option<SessionId>, reason: SessionId -> string)
    requires HeldOk(st)
    ensures HeldStep(st, Stop(st, order, target, reason))
  {
    Runs.StopEachFrame(st, order, target, reason);
    StopEachHeld(st, order, target, reason);
    var marked := StopEach(st, order, target, reason);
    StopQueueHeld(marked.(queue := []), marked.queue, target);
  }

  lemma ReleaseOneHeld(cfg: Config, st: State, s: SessionId)
    requires HeldOk(st)
    ensures HeldStep(st, ReleaseOne(cfg, st, s))
  {
    if !(At(st.pending, s) == [] || s in st.held || s in st.active) {
      var (taken, e) := Take(st.(unreachable := st.unreachable - {s}), s);
      assert HeldOk(taken);
      DispatchHeld(cfg, taken, e);
    }
  }

  lemma {:induction false} ReleaseHeld(cfg: Config, st: State, order: seq<SessionId>, onModel: set<SessionId>)
    requires HeldOk(st)
    ensures HeldStep(st, Release(cfg, st, order, onModel))
    decreases |order|
  {
    if order != [] {
      var s := order[0];
      if s in st.unreachable && s in onModel {
        ReleaseOneHeld(cfg, st, s);
        ReleaseHeld(cfg, ReleaseOne(cfg, st, s), order[1..], onModel);
      } else {
        ReleaseHeld(cfg, st, order[1..], onModel);
      }
    }
  }

  lemma SubmitOkHeld(cfg: Config, st: State, s: SessionId, text: string, open: bool, prepared: bool)
    requires HeldOk(st)
    ensures var next := Submit(cfg, st, s, text, open, prepared).0;
      HeldOk(next) && forall t :: t in st.held && t != s ==> HeldFixed(st, next, t)
  {
    hide Dispatch;
    if open && prepared && s !in st.unreachable {
      hide HeldOk, HeldFixed;
      if s in st.held {
        SubmitHeldHeld(cfg, st, s, text);
      } else if s in st.active || IsRunning(st, s) {
        WaitHeld(st, Wait(st, s, text), s);
        WaitHeld(st, st, s);
      } else {
        SubmitDirectHeld(cfg, st, s, text);
      }
    }
  }

  lemma WaitHeld(a: State, b: State, s: SessionId)
    requires HeldOk(a) && b.held == a.held && b.queue == a.queue && b.active == a.active
    requires At(a.pending, s) <= At(b.pending, s) && forall t :: t != s ==> At(b.pending, t) == At(a.pending, t)
    ensures HeldOk(b) && forall t :: t in a.held && t != s ==> HeldFixed(a, b, t)
  {
  }

  lemma SubmitDirectHeld(cfg: Config, st: State, s: SessionId, text: string)
    requires HeldOk(st) && s !in st.held
    ensures var next := SubmitDirect(cfg, st, s, text, true).0;
      HeldOk(next) && forall t :: t in st.held && t != s ==> HeldFixed(st, next, t)
  {
    hide Dispatch;
    var next := AppendDirect(st, s, text);
    assert HeldOk(next);
    DispatchHeld(cfg, next, Entry(s, next.ids, None));
  }

  lemma SubmitHeldHeld(cfg: Config, st: State, s: SessionId, text: string)
    requires HeldOk(st) && s in st.held
    ensures var next := SubmitHeld(cfg, st, s, text, true).0;
      HeldOk(next) && forall t :: t in st.held && t != s ==> HeldFixed(st, next, t)
  {
    hide Dispatch;
    var (taken, e) := Take(Wait(st, s, text).(held := st.held - {s}), s);
    assert HeldOk(taken);
    DispatchHeld(cfg, taken, e);
  }

  lemma NextHeld(cfg: Config, st: State, step: Step)
    requires HeldOk(st)
    ensures HeldOk(Next(cfg, st, step))
    ensures !step.DoSubmit? ==> HeldStep(st, Next(cfg, st, step))
  {
    match step
    case DoSubmit(s, text, open, prepared) => SubmitOkHeld(cfg, st, s, text, open, prepared);
    case DoFinish(s, run, reason) => FinishHeld(cfg, st, s, run, reason);
    case DoForceFinish(s, run) => ForceFinishHeld(cfg, st, s, run);
    case DoStop(order, target, reason) => StopHeld(st, order, target, reason);
    case DoRelease(order, onModel) => ReleaseHeld(cfg, st, order, onModel);
    case DoHoldModel(s) =>
    case DoSetStatus(s, value) =>
  }

  lemma {:induction false} EveryRunHeld(cfg: Config, steps: seq<Step>)
    ensures HeldOk(After(cfg, steps))
  {
    if steps != [] {
      EveryRunHeld(cfg, steps[..|steps| - 1]);
      NextHeld(cfg, After(cfg, steps[..|steps| - 1]), steps[|steps| - 1]);
    }
  }

  /**
    After every run, a held session has pending messages and no queue entry; and any next step other
    than a Submit to that session keeps it held, keeps its pending list, and starts no run for it.
   */
  lemma HeldUntilSubmit(cfg: Config, steps: seq<Step>, step: Step, s: SessionId)
    requires s in After(cfg, steps).held
    requires step.DoSubmit? ==> step.session != s
    ensures At(After(cfg, steps).pending, s) != [] && !InQueue(After(cfg, steps).queue, s)
    ensures HeldFixed(After(cfg, steps), Next(cfg, After(cfg, steps), step), s)
  {
    EveryRunHeld(cfg, steps);
    var st := After(cfg, steps);
    NextHeld(cfg, st, step);
    if step.DoSubmit? {
      SubmitOkHeld(cfg, st, step.session, step.text, step.open, step.prepared);
    }
  }

  // ----- no session is stranded -----------------------------------------------------------

  ghost predicate Accounted(st: State, queue: seq<Entry>, s: SessionId) {
    s in st.active || InQueue(queue, s) || s in st.held || s in st.unreachable
  }

  /** What a run status says while only the scheduler writes it. */
  ghost predicate StatusOk(st: State, queue: seq<Entry>, s: SessionId) {
    match StatusOf(st, s)
    case Idle => true
    case Queued => InQueue(queue, s)
    case Held => s in st.active || InQueue(queue, s) || QueueHeld(st, s)
    case _ => s in st.active
  }

  ghost predicate SessionOk(st: State, queue: seq<Entry>, s: SessionId) {
    && StatusOk(st, queue, s)
    && (At(st.pending, s) != [] ==> Accounted(st, queue, s))
  }

  ghost predicate AllOk(st: State, queue: seq<Entry>) {
    forall s :: SessionOk(st, queue, s)
  }

  lemma StartOk(st: State, e: Entry)
    requires OthersInOrder(st, e.session)
    ensures AllOk(Start(st, e), Start(st, e).queue)
  {
    hide InQueue, At;
    var next := Start(st, e);
    forall s
      ensures SessionOk(next, next.queue, s)
    {
      assert s != e.session ==> SessionOk(st, st.queue, s);
    }
  }

  lemma EnqueueOk(st: State, e: Entry)
    requires OthersInOrder(st, e.session)
    ensures AllOk(Enqueue(st, e), Enqueue(st, e).queue)
  {
    var next := Enqueue(st, e);
    forall s
      ensures InQueue(st.queue + [e], s) <==> InQueue(st.queue, s) || e.session == s
    {
      InQueueSnoc(st.queue, e, s);
    }
    hide InQueue, At;
    forall s
      ensures SessionOk(next, next.queue, s)
    {
      assert s != e.session ==> SessionOk(st, st.queue, s);
    }
  }

  /** Running or queueing an entry of `s` settles the case of `s` and touches no other session. */
  lemma DispatchOk(cfg: Config, st: State, e: Entry)
    requires OthersInOrder(st, e.session)
    ensures AllOk(Dispatch(cfg, st, e), Dispatch(cfg, st, e).queue)
  {
    hide OthersInOrder, AllOk, Start, Enqueue;
    StartOk(st, e);
    EnqueueOk(st, e);
  }

  lemma {:induction false} DrainOk(cfg: Config, st: State)
    requires AllOk(st, st.queue)
    ensures AllOk(Drain(cfg, st), Drain(cfg, st).queue)
    decreases |st.queue|
  {
    if st.queue != [] && |st.active| < cfg.maxConcurrent {
      var e := st.queue[0];
      var popped := st.(queue := st.queue[1..]);
      var begun := Start(popped, e);
      assert [e] + popped.queue == st.queue;
      forall s
        ensures SessionOk(begun, begun.queue, s)
      {
        assert SessionOk(st, st.queue, s);
        InQueueCons(e, popped.queue, s);
      }
      DrainOk(cfg, begun);
    }
  }

  /** Everybody but `s` is in order, and `s` has something that will dispatch it if it has to wait. */
  ghost predicate OthersInOrder(st: State, s: SessionId) {
    forall t :: t != s ==> SessionOk(st, st.queue, t)
  }

  lemma HandOverOk(st: State, s: SessionId)
    requires OthersInOrder(st, s)
    ensures var next := HandOver(st, s);
      OthersInOrder(next, s) && (At(next.pending, s) != [] ==> Accounted(next, next.queue, s))
  {
    if At(st.pending, s) != [] && s !in st.held && s !in st.unreachable {
      var (taken, e) := Take(st, s);
      var next := Enqueue(taken, e);
      forall t
        ensures InQueue(next.queue, t) <==> InQueue(st.queue, t) || t == s
      {
        InQueueSnoc(st.queue, e, t);
      }
      hide InQueue;
      forall t | t != s
        ensures SessionOk(next, next.queue, t)
      {
        assert SessionOk(st, st.queue, t);
      }
    }
  }

  lemma SettleOk(cfg: Config, st: State, s: SessionId, run: nat)
    requires OthersInOrder(st, s) && (At(st.pending, s) != [] ==> Accounted(st, st.queue, s))
    ensures AllOk(Settle(cfg, st, s, run), Settle(cfg, st, s, run).queue)
  {
    var stopped := SetStatus(st, s, if QueueHeld(st, s) then Held else Idle).(stopped := st.stopped + [run]);
    assert AllOk(stopped, stopped.queue) by {
      hide InQueue, At;
      forall t
        ensures SessionOk(stopped, stopped.queue, t)
      {
        assert t != s ==> SessionOk(st, st.queue, t);
      }
    }
    hide AllOk;
    DrainOk(cfg, stopped);
  }

  lemma FinishOk(cfg: Config, st: State, s: SessionId, run: nat, reason: string)
    requires AllOk(st, st.queue)
    ensures AllOk(Finish(cfg, st, s, run, reason), Finish(cfg, st, s, run, reason).queue)
  {
    if Owns(st, s, run) {
      var freed := st.(
        active := st.active - {s},
        unreachable := if FinalReason(st.active[s], reason) == "model_unreachable" then st.unreachable + {s} else st.unreachable);
      OthersOk(st, freed, s);
      hide AllOk, SessionOk, HandOver, Settle;
      HandOverOk(freed, s);
      SettleOk(cfg, HandOver(freed, s), s, run);
    }
  }

  /** The forced finish of this run would leave pending messages that nothing dispatches. */
  ghost predicate Strands(st: State, s: SessionId) {
    At(st.pending, s) != [] && s !in st.held && s !in st.unreachable && !InQueue(st.queue, s)
  }

  lemma ForceFinishOk(cfg: Config, st: State, s: SessionId, run: nat)
    requires AllOk(st, st.queue) && (Owns(st, s, run) ==> !Strands(st, s))
    ensures AllOk(ForceFinish(cfg, st, s, run), ForceFinish(cfg, st, s, run).queue)
  {
    if Owns(st, s, run) {
      var freed := st.(active := st.active - {s});
      OthersOk(st, freed, s);
      hide AllOk, SessionOk, Settle;
      SettleOk(cfg, freed, s, run);
    }
  }

  lemma {:induction false} StopEachOk(st: State, order: seq<SessionId>, target: Option<SessionId>, reason: SessionId -> string)
    requires AllOk(st, st.queue)
    ensures AllOk(StopEach(st, order, target, reason), st.queue)
    decreases |order|
  {
    if order != [] {
      var s := order[0];
      var next := if Targets(target, s) && s in st.active then StopActive(st, s, reason(s)) else st;
      forall t
        ensures SessionOk(next, next.queue, t)
      {
        assert SessionOk(st, st.queue, t);
      }
      StopEachOk(next, order[1..], target, reason);
    }
  }

  lemma {:induction false} StopQueueOk(st: State, rest: seq<Entry>, target: Option<SessionId>)
    requires AllOk(st, st.queue + rest)
    requires forall s :: s in st.held ==> At(st.pending, s) != []
    ensures AllOk(StopQueue(st, rest, target), StopQueue(st, rest, target).queue)
    decreases |rest|
  {
    hide SessionOk, InQueue;
    if rest == [] {
      assert st.queue + rest == st.queue;
    } else {
      var e := rest[0];
      if Targets(target, e.session) {
        DropOk(st, rest);
        StopQueueOk(StopQueued(st, e), rest[1..], target);
      } else {
        assert st.queue + [e] + rest[1..] == st.queue + rest;
        var kept := st.(queue := st.queue + [e]);
        SameSessions(st, kept, st.queue + rest);
        StopQueueOk(kept, rest[1..], target);
      }
    }
  }

  lemma SameSessions(a: State, b: State, queue: seq<Entry>)
    requires AllOk(a, queue)
    requires b == a.(queue := b.queue)
    ensures AllOk(b, queue)
  {
    hide InQueue;
    forall s
      ensures SessionOk(b, queue, s)
    {
      assert SessionOk(a, queue, s);
    }
  }

  lemma DropOk(st: State, rest: seq<Entry>)
    requires rest != [] && AllOk(st, st.queue + rest)
    requires forall s :: s in st.held ==> At(st.pending, s) != []
    ensures AllOk(StopQueued(st, rest[0]), st.queue + rest[1..])
    ensures forall s :: s in StopQueued(st, rest[0]).held ==> At(st.pending, s) != []
  {
    hide InQueue;
    var e := rest[0];
    var next := StopQueued(st, e);
    forall s
      ensures SessionOk(next, st.queue + rest[1..], s)
    {
      assert SessionOk(st, st.queue + rest, s);
      assert [e] + rest[1..] == rest;
      InQueueCons(e, rest[1..], s);
      InQueueConcat(st.queue, rest, s);
      InQueueConcat(st.queue, rest[1..], s);
    }
  }

  lemma StopOk(st: State, order: seq<SessionId>, target: Option<SessionId>, reason: SessionId -> string)
    requires AllOk(st, st.queue) && HeldOk(st)
    ensures AllOk(Stop(st, order, target, reason), Stop(st, order, target, reason).queue)
  {
    Runs.StopEachFrame(st, order, target, reason);
    StopEachHeld(st, order, target, reason);
    StopEachOk(st, order, target, reason);
    var marked := StopEach(st, order, target, reason);
    var emptied := marked.(queue := []);
    assert [] + marked.queue == marked.queue;
    forall s
      ensures SessionOk(emptied, marked.queue, s)
    {
      assert SessionOk(marked, marked.queue, s);
    }
    StopQueueOk(emptied, marked.queue, target);
  }

  lemma ReleaseOneOk(cfg: Config, st: State, s: SessionId)
    requires AllOk(st, st.queue)
    ensures AllOk(ReleaseOne(cfg, st, s), ReleaseOne(cfg, st, s).queue)
  {
    var reachable := st.(unreachable := st.unreachable - {s});
    if At(st.pending, s) == [] || s in st.held || s in st.active {
      forall t
        ensures SessionOk(reachable, reachable.queue, t)
      {
        assert SessionOk(st, st.queue, t);
      }
    } else {
      var (taken, e) := Take(reachable, s);
      OthersOk(st, taken, s);
      hide SessionOk;
      DispatchOk(cfg, taken, e);
    }
  }

  lemma {:induction false} ReleaseOk(cfg: Config, st: State, order: seq<SessionId>, onModel: set<SessionId>)
    requires AllOk(st, st.queue)
    ensures AllOk(Release(cfg, st, order, onModel), Release(cfg, st, order, onModel).queue)
    decreases |order|
  {
    if order != [] {
      var s := order[0];
      if s in st.unreachable && s in onModel {
        ReleaseOneOk(cfg, st, s);
        ReleaseOk(cfg, ReleaseOne(cfg, st, s), order[1..], onModel);
      } else {
        ReleaseOk(cfg, st, order[1..], onModel);
      }
    }
  }

  /** A change to the waiting state of one session leaves the case of every other session as it was. */
  lemma OthersOk(a: State, b: State, s: SessionId)
    requires AllOk(a, a.queue) && b.queue == a.queue
    requires forall t :: t != s ==>
      StatusOf(b, t) == StatusOf(a, t) && At(b.pending, t) == At(a.pending, t) && (t in b.active <==> t in a.active)
      && (t in b.held <==> t in a.held) && (t in b.unreachable <==> t in a.unreachable)
    ensures OthersInOrder(b, s)
  {
    hide InQueue, At;
    forall t | t != s
      ensures SessionOk(b, b.queue, t)
    {
      assert SessionOk(a, a.queue, t);
    }
  }

  lemma SubmitOk(cfg: Config, st: State, s: SessionId, text: string, open: bool, prepared: bool)
    requires AllOk(st, st.queue)
    ensures var next := Submit(cfg, st, s, text, open, prepared).0; AllOk(next, next.queue)
  {
    hide AllOk, Dispatch, Wait, Take, AppendDirect;
    if open && prepared {
      if s in st.unreachable {
        SubmitUnreachableOk(st, s, text);
      } else if s in st.held {
        SubmitHeldOk(cfg, st, s, text);
      } else if s in st.active || IsRunning(st, s) {
        SubmitBusyOk(st, s, text);
      } else {
        SubmitDirectOk(cfg, st, s, text);
      }
    }
  }

  lemma SubmitHeldOk(cfg: Config, st: State, s: SessionId, text: string)
    requires AllOk(st, st.queue) && s in st.held
    ensures var next := SubmitHeld(cfg, st, s, text, true).0; AllOk(next, next.queue)
  {
    var lifted := Wait(st, s, text).(held := st.held - {s});
    var (taken, e) := Take(lifted, s);
    OthersOk(st, taken, s);
    hide AllOk, OthersInOrder, Dispatch;
    DispatchOk(cfg, taken, e);
  }

  lemma SubmitDirectOk(cfg: Config, st: State, s: SessionId, text: string)
    requires AllOk(st, st.queue)
    ensures var next := SubmitDirect(cfg, st, s, text, true).0; AllOk(next, next.queue)
  {
    var next := AppendDirect(st, s, text);
    OthersOk(st, next, s);
    hide AllOk, OthersInOrder, Dispatch;
    DispatchOk(cfg, next, Entry(s, next.ids, None));
  }

  lemma SubmitUnreachableOk(st: State, s: SessionId, text: string)
    requires AllOk(st, st.queue) && s in st.unreachable
    ensures var next := SetStatus(Wait(st, s, text), s, Held); AllOk(next, next.queue)
  {
    hide InQueue;
    assert SessionOk(st, st.queue, s);
    OthersOk(st, SetStatus(Wait(st, s, text), s, Held), s);
  }

  /** A busy session that is neither held nor unreachable is active or queued, so a message may wait. */
  lemma SubmitBusyOk(st: State, s: SessionId, text: string)
    requires AllOk(st, st.queue) && s !in st.unreachable && s !in st.held && (s in st.active || IsRunning(st, s))
    ensures var next := Wait(st, s, text); AllOk(next, next.queue)
  {
    hide InQueue;
    assert SessionOk(st, st.queue, s);
    OthersOk(st, Wait(st, s, text), s);
  }

  /**
    A step that cannot strand anybody: a forced finish only of a run whose session does not depend on
    it, and a foreign status write only one that makes a session idle, or that is made to a session with
    an active run and does not say "queued", as when the gate pauses and resumes a run.
   */
  ghost predicate Harmless(st: State, step: Step) {
    && (step.DoForceFinish? && Owns(st, step.session, step.run) ==> !Strands(st, step.session))
    && (step.DoSetStatus? ==> step.value == Idle || (step.session in st.active && step.value != Queued))
  }

  lemma NextOk(cfg: Config, st: State, step: Step)
    requires AllOk(st, st.queue) && HeldOk(st) && Harmless(st, step)
    ensures AllOk(Next(cfg, st, step), Next(cfg, st, step).queue)
  {
    match step
    case DoSubmit(s, text, open, prepared) => SubmitOk(cfg, st, s, text, open, prepared);
    case DoFinish(s, run, reason) => FinishOk(cfg, st, s, run, reason);
    case DoForceFinish(s, run) => ForceFinishOk(cfg, st, s, run);
    case DoStop(order, target, reason) => StopOk(st, order, target, reason);
    case DoRelease(order, onModel) => ReleaseOk(cfg, st, order, onModel);
    case DoHoldModel(s) => WriteOk(st, HoldModel(st, s));
    case DoSetStatus(s, value) => StatusWriteOk(st, s, value);
  }

  lemma WriteOk(a: State, b: State)
    requires AllOk(a, a.queue) && b == a.(unreachable := b.unreachable) && a.unreachable <= b.unreachable
    ensures AllOk(b, b.queue)
  {
    hide InQueue;
    forall t
      ensures SessionOk(b, b.queue, t)
    {
      assert SessionOk(a, a.queue, t);
    }
  }

  lemma StatusWriteOk(st: State, s: SessionId, value: Status)
    requires AllOk(st, st.queue) && Harmless(st, DoSetStatus(s, value))
    ensures AllOk(SetStatus(st, s, value), st.queue)
  {
    hide InQueue;
    forall t
      ensures SessionOk(SetStatus(st, s, value), st.queue, t)
    {
      assert SessionOk(st, st.queue, t);
    }
  }

  ghost predicate HarmlessRun(cfg: Config, steps: seq<Step>) {
    forall i :: 0 <= i < |steps| ==> Harmless(After(cfg, steps[..i]), steps[i])
  }

  lemma {:induction false} EveryRunOk(cfg: Config, steps: seq<Step>)
    requires HarmlessRun(cfg, steps)
    ensures AllOk(After(cfg, steps), After(cfg, steps).queue)
  {
    hide AllOk, HeldOk, Next, Harmless;
    if steps == [] {
      assert AllOk(Initial, Initial.queue) by { InitialOk(); }
    } else {
      var n := |steps| - 1;
      var before := steps[..n];
      forall i | 0 <= i < n ensures Harmless(After(cfg, before[..i]), before[i]) {
        assert before[..i] == steps[..i];
      }
      EveryRunOk(cfg, before);
      EveryRunHeld(cfg, before);
      NextOk(cfg, After(cfg, before), steps[n]);
    }
  }

  lemma InitialOk()
    ensures AllOk(Initial, Initial.queue)
  {
  }

  /**
    In every run of harmless steps, a session with pending messages is active, queued, held or waiting
    for its model.
   */
  lemma NobodyStranded(cfg: Config, steps: seq<Step>, s: SessionId)
    requires HarmlessRun(cfg, steps)
    requires At(After(cfg, steps).pending, s) != []
    ensures Accounted(After(cfg, steps), After(cfg, steps).queue, s)
  {
    EveryRunOk(cfg, steps);
    assert SessionOk(After(cfg, steps), After(cfg, steps).queue, s);
  }

  /**
    A forced finish can strand its session, and this is exactly when: messages were submitted after
    Stop, so the session has pending messages but is not held, its model is reachable, and no other
    run of it is queued.
   */
  lemma ForcedFinishStrands(cfg: Config, st: State, s: SessionId, run: nat)
    requires Owns(st, s, run)
    ensures var next := ForceFinish(cfg, st, s, run);
      (At(next.pending, s) != [] && !Accounted(next, next.queue, s))
      <==> Strands(st, s)
  {
    var freed := st.(active := st.active - {s});
    var stopped := SetStatus(freed, s, if QueueHeld(freed, s) then Held else Idle).(stopped := freed.stopped + [run]);
    DrainTracks(cfg, stopped, s);
  }

  lemma {:induction false} DrainTracks(cfg: Config, st: State, s: SessionId)
    ensures var next := Drain(cfg, st);
      && (s in next.active || InQueue(next.queue, s) <==> s in st.active || InQueue(st.queue, s))
      && next.pending == st.pending && next.held == st.held && next.unreachable == st.unreachable
    decreases |st.queue|
  {
    if st.queue != [] && |st.active| < cfg.maxConcurrent {
      var popped := st.(queue := st.queue[1..]);
      assert [st.queue[0]] + popped.queue == st.queue;
      InQueueCons(st.queue[0], popped.queue, s);
      DrainTracks(cfg, Start(popped, st.queue[0]), s);
    }
  }

  /** A run that strands a session: submit, stop, submit again, and the stop times out. */
  function StrandingRun(reason: SessionId -> string): seq<Step> {
    [DoSubmit("a", "x", true, true), DoStop(["a"], Some("a"), reason), DoSubmit("a", "y", true, true), DoForceFinish("a", 1)]
  }

  lemma StrandedExample(reason: SessionId -> string)
    ensures var st := After(Config(1, 0), StrandingRun(reason));
      At(st.pending, "a") != [] && !Accounted(st, st.queue, "a")
  {
    var cfg := Config(1, 0);
    var steps := StrandingRun(reason);
    var s1 := Submit(cfg, Initial, "a", "x", true, true).0;
    var line := Line(Message(0, "x"), false);
    assert s1 == Start(AppendDirect(Initial, "a", "x"), Entry("a", 1, None));
    assert Push(map[], "a", line) == map["a" := [line]] by { assert [] + [line] == [line]; }
    assert [] + [1] == [1];
    assert s1 == Initial.(
      active := map["a" := Active(1, "")], status := map["a" := Running], ids := 1, nextMessage := 1, started := [1],
      accepted := map["a" := [Line(Message(0, "x"), false)]], transcript := map["a" := [Line(Message(0, "x"), false)]]);
    assert After(cfg, steps[..1]) == s1 by {
      assert steps[..1][..0] == [];
    }
    var s2 := Stop(s1, ["a"], Some("a"), reason);
    assert s2 == StopActive(s1, "a", reason("a")).(queue := []) by {
      var marked := StopEach(s1, ["a"], Some("a"), reason);
      assert marked == StopEach(StopActive(s1, "a", reason("a")), [], Some("a"), reason);
    }
    assert After(cfg, steps[..2]) == s2 by {
      assert steps[..2][..1] == steps[..1];
    }
    var s3 := Submit(cfg, s2, "a", "y", true, true).0;
    assert s3 == Wait(s2, "a", "y");
    assert After(cfg, steps[..3]) == s3 by {
      assert steps[..3][..2] == steps[..2];
    }
    ForcedFinishStrands(cfg, s3, "a", 1);
  }
}
