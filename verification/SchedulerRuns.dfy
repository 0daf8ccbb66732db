/**
  Slots, dispatch order and run ids, over every run of the scheduler: capacity is respected, the
  queue is only used when every slot is taken, runs start in run-id order, and a run id is
  reported as stopped at most once.
 */
module SchedulerRuns {
  import opened Prelude
  import opened SchedulerSpec

  function RunIds(queue: seq<Entry>): (r: seq<int>)
    ensures |r| == |queue|
    ensures forall i :: 0 <= i < |queue| ==> r[i] == queue[i].run
  {
    seq(|queue|, i requires 0 <= i < |queue| => queue[i].run)
  }

  /** All run ids in the order in which they started or will start. */
  function Lineup(st: State): seq<int> {
    st.started + RunIds(st.queue)
  }

  ghost predicate LineupOk(st: State) {
    && Increasing(Lineup(st))
    && (forall r :: r in Lineup(st) ==> r <= st.ids)
  }

  ghost predicate ActiveOk(st: State) {
    && (forall s :: s in st.active ==> st.active[s].run in st.started && st.active[s].run !in st.stopped)
    && (forall s, t :: s in st.active && t in st.active && st.active[s].run == st.active[t].run ==> s == t)
  }

  ghost predicate StoppedOk(st: State) {
    && Distinct(st.stopped)
    && (forall r :: r in st.stopped ==> r <= st.ids)
    && (forall e :: e in st.queue ==> e.run !in st.stopped)
  }

  ghost predicate RunsOk(st: State) {
    LineupOk(st) && ActiveOk(st) && StoppedOk(st)
  }

  ghost predicate Capacity(cfg: Config, st: State) {
    && |st.active| <= cfg.maxConcurrent
    && (st.queue != [] ==> |st.active| == cfg.maxConcurrent)
  }

  ghost predicate Safe(cfg: Config, st: State) {
    RunsOk(st) && Capacity(cfg, st)
  }

  lemma AboveAll(ids: seq<int>, top: int)
    requires Increasing(ids) && forall r :: r in ids ==> r < top
    ensures Increasing(ids + [top]) && forall r :: r in ids + [top] ==> r <= top
  {
    assert forall i :: 0 <= i < |ids| ==> ids[i] in ids;
  }

  lemma SplitIncreasing(a: seq<int>, b: seq<int>)
    requires Increasing(a + b)
    ensures Increasing(a) && Increasing(b)
    ensures forall x, y :: x in a && y in b ==> x < y
  {
    var c := a + b;
    assert forall i :: 0 <= i < |a| ==> a[i] == c[i];
    assert forall i :: 0 <= i < |b| ==> b[i] == c[|a| + i];
  }

  lemma QueuedRunListed(queue: seq<Entry>, e: Entry)
    requires e in queue
    ensures e.run in RunIds(queue)
  {
    var i :| 0 <= i < |queue| && queue[i] == e;
    assert RunIds(queue)[i] == e.run;
  }

  /** Starting the oldest entry that is not yet started keeps the lineup as it is. */
  lemma StartKeeps(st: State, e: Entry)
    requires RunsOk(st.(queue := [e] + st.queue))
    ensures RunsOk(Start(st, e))
    ensures |Start(st, e).active| <= |st.active| + 1
  {
    var next := Start(st, e);
    var waiting := st.(queue := [e] + st.queue);
    assert Lineup(next) == Lineup(waiting);
    assert e in waiting.queue by { assert waiting.queue[0] == e; }
    QueuedRunListed(waiting.queue, e);
    SplitIncreasing(st.started, RunIds(waiting.queue));
    StartKeepsActive(st, e);
    assert StoppedOk(next) by {
      assert forall x :: x in st.queue ==> x in waiting.queue;
    }
  }

  lemma StartKeepsActive(st: State, e: Entry)
    requires ActiveOk(st) && e.run !in st.started && e.run !in st.stopped
    ensures ActiveOk(Start(st, e))
  {
    var next := Start(st, e);
    assert e.run in next.started by { assert next.started[|st.started|] == e.run; }
    assert forall r :: r in st.started ==> r in next.started;
  }

  lemma EnqueueKeeps(st: State, e: Entry)
    requires RunsOk(st) && e.run <= st.ids && e.run !in st.stopped
    requires forall r :: r in Lineup(st) ==> r < e.run
    ensures RunsOk(Enqueue(st, e))
  {
    assert Lineup(Enqueue(st, e)) == Lineup(st) + [e.run];
    AboveAll(Lineup(st), e.run);
  }

  /** An entry with the newest id goes to a free slot or to the end of the queue. */
  lemma DispatchKeeps(cfg: Config, st: State, e: Entry)
    requires Safe(cfg, st)
    requires e.run <= st.ids && e.run !in st.stopped
    requires forall r :: r in Lineup(st) ==> r < e.run
    ensures Safe(cfg, Dispatch(cfg, st, e))
  {
    if |st.active| < cfg.maxConcurrent {
      assert st.queue == [];
      var waiting := st.(queue := [e] + st.queue);
      assert Lineup(waiting) == Lineup(st) + [e.run];
      AboveAll(Lineup(st), e.run);
      StartKeeps(st, e);
    } else {
      EnqueueKeeps(st, e);
    }
  }

  lemma {:induction false} DrainKeeps(cfg: Config, st: State)
    requires RunsOk(st) && |st.active| <= cfg.maxConcurrent
    ensures Safe(cfg, Drain(cfg, st))
    decreases |st.queue|
  {
    if st.queue != [] && |st.active| < cfg.maxConcurrent {
      var popped := st.(queue := st.queue[1..]);
      assert [st.queue[0]] + popped.queue == st.queue;
      StartKeeps(popped, st.queue[0]);
      DrainKeeps(cfg, Start(popped, st.queue[0]));
    }
  }

  lemma FreeSlot(m: map<SessionId, Active>, s: SessionId)
    requires s in m
    ensures |m - {s}| == |m| - 1
  {
    assert (m - {s}).Keys == m.Keys - {s};
  }

  lemma SettleKeeps(cfg: Config, st: State, s: SessionId, run: nat)
    requires RunsOk(st) && |st.active| <= cfg.maxConcurrent
    requires run <= st.ids && run !in st.stopped
    requires forall t :: t in st.active ==> st.active[t].run != run
    requires forall e :: e in st.queue ==> e.run != run
    ensures Safe(cfg, Settle(cfg, st, s, run))
  {
    var stopped := SetStatus(st, s, if QueueHeld(st, s) then Held else Idle).(stopped := st.stopped + [run]);
    assert Lineup(stopped) == Lineup(st);
    assert RunsOk(stopped);
    DrainKeeps(cfg, stopped);
  }

  lemma TakeKeeps(st: State, s: SessionId)
    requires RunsOk(st) && At(st.pending, s) != []
    ensures RunsOk(Take(st, s).0)
    ensures var (taken, e) := Take(st, s);
      && e.run <= taken.ids && e.run !in taken.stopped
      && (forall r :: r in Lineup(taken) ==> r < e.run)
  {
    assert Lineup(Take(st, s).0) == Lineup(st);
  }

  /** The next pending message takes a run id above all others, so it may join the end of the queue. */
  lemma HandOverKeeps(st: State, s: SessionId)
    requires RunsOk(st)
    ensures RunsOk(HandOver(st, s))
    ensures HandOver(st, s).active == st.active && HandOver(st, s).stopped == st.stopped
    ensures HandOver(st, s).ids >= st.ids
    ensures forall e :: e in HandOver(st, s).queue ==> e in st.queue || e.run > st.ids
  {
    if At(st.pending, s) != [] && s !in st.held && s !in st.unreachable {
      TakeKeeps(st, s);
      var (taken, e) := Take(st, s);
      EnqueueKeeps(taken, e);
    }
  }

  lemma FreeKeeps(cfg: Config, st: State, freed: State, s: SessionId)
    requires Safe(cfg, st) && s in st.active
    requires freed == st.(active := st.active - {s}, unreachable := freed.unreachable)
    ensures RunsOk(freed) && |freed.active| < cfg.maxConcurrent
    ensures var run := st.active[s].run;
      && run !in freed.stopped && run <= freed.ids
      && (forall t :: t in freed.active ==> freed.active[t].run != run)
      && (forall e :: e in freed.queue ==> e.run != run)
  {
    FreeSlot(st.active, s);
    assert Lineup(freed) == Lineup(st);
    var run := st.active[s].run;
    SplitIncreasing(st.started, RunIds(st.queue));
    forall e | e in freed.queue
      ensures e.run != run
    {
      QueuedRunListed(st.queue, e);
    }
    assert run in Lineup(st);
  }

  lemma FinishKeeps(cfg: Config, st: State, s: SessionId, run: nat, reason: string)
    requires Safe(cfg, st)
    ensures Safe(cfg, Finish(cfg, st, s, run, reason))
  {
    if Owns(st, s, run) {
      var freed := st.(
        active := st.active - {s},
        unreachable := if FinalReason(st.active[s], reason) == "model_unreachable" then st.unreachable + {s} else st.unreachable);
      FreeKeeps(cfg, st, freed, s);
      HandOverKeeps(freed, s);
      SettleKeeps(cfg, HandOver(freed, s), s, run);
    }
  }

  lemma ForceFinishKeeps(cfg: Config, st: State, s: SessionId, run: nat)
    requires Safe(cfg, st)
    ensures Safe(cfg, ForceFinish(cfg, st, s, run))
  {
    if Owns(st, s, run) {
      var freed := st.(active := st.active - {s});
      FreeKeeps(cfg, st, freed, s);
      SettleKeeps(cfg, freed, s, run);
    }
  }

  /** Everything Stop does to active runs is to set their stop reason, hold and status. */
  lemma {:induction false} StopEachFrame(st: State, order: seq<SessionId>, target: Option<SessionId>, reason: SessionId -> string)
    ensures var after := StopEach(st, order, target, reason);
      && after.active.Keys == st.active.Keys
      && (forall t :: t in st.active ==> after.active[t].run == st.active[t].run)
      && after == st.(active := after.active, held := after.held, status := after.status)
    decreases |order|
  {
    if order != [] {
      var s := order[0];
      StopEachFrame(if Targets(target, s) && s in st.active then StopActive(st, s, reason(s)) else st, order[1..], target, reason);
    }
  }

  /** While Stop sorts the queue, the kept entries and the rest together are still a good queue. */
  lemma {:induction false} StopQueueKeeps(st: State, rest: seq<Entry>, target: Option<SessionId>)
    requires RunsOk(st.(queue := st.queue + rest))
    ensures RunsOk(StopQueue(st, rest, target))
    ensures StopQueue(st, rest, target).active == st.active
    ensures |StopQueue(st, rest, target).queue| <= |st.queue| + |rest|
    decreases |rest|
  {
    hide RunsOk, StopQueued;
    if rest == [] {
      assert st.(queue := st.queue + rest) == st by { assert st.queue + rest == st.queue; }
    } else if Targets(target, rest[0].session) {
      DropKeeps(st, rest);
      assert StopQueued(st, rest[0]).queue == st.queue && StopQueued(st, rest[0]).active == st.active by { StopQueuedFrame(st, rest[0]); }
      StopQueueKeeps(StopQueued(st, rest[0]), rest[1..], target);
    } else {
      assert st.queue + [rest[0]] + rest[1..] == st.queue + rest;
      assert st.(queue := st.queue + [rest[0]]).(queue := st.queue + [rest[0]] + rest[1..]) == st.(queue := st.queue + rest);
      StopQueueKeeps(st.(queue := st.queue + [rest[0]]), rest[1..], target);
    }
  }

  lemma StopQueuedFrame(st: State, e: Entry)
    ensures StopQueued(st, e).queue == st.queue && StopQueued(st, e).active == st.active
  {
  }

  lemma WithoutOne(a: seq<int>, x: int, b: seq<int>)
    requires Increasing(a + [x] + b)
    ensures Increasing(a + b) && x !in a && x !in b
  {
    assert a + [x] + b == a + ([x] + b);
    SplitIncreasing(a, [x] + b);
    SplitIncreasing([x], b);
    assert x in [x] && x in [x] + b;
    assert forall y :: y in b ==> y in [x] + b;
    assert forall i :: 0 <= i < |a| ==> a[i] in a;
    assert forall i :: 0 <= i < |b| ==> b[i] in b;
  }

  lemma DropKeeps(st: State, rest: seq<Entry>)
    requires rest != [] && RunsOk(st.(queue := st.queue + rest))
    ensures RunsOk(StopQueued(st, rest[0]).(queue := st.queue + rest[1..]))
  {
    var whole := st.(queue := st.queue + rest);
    var next := StopQueued(st, rest[0]).(queue := st.queue + rest[1..]);
    var run: int := rest[0].run;
    var before := st.started + RunIds(st.queue);
    assert Lineup(whole) == before + [run] + RunIds(rest[1..]);
    assert Lineup(next) == before + RunIds(rest[1..]);
    WithoutOne(before, run, RunIds(rest[1..]));
    assert run in Lineup(whole) by { assert Lineup(whole)[|before|] == run; }
    assert rest[0] in whole.queue by { assert whole.queue[|st.queue|] == rest[0]; }
    assert LineupOk(next) by {
      assert forall r :: r in Lineup(next) ==> r in Lineup(whole);
    }
    assert ActiveOk(next) by {
      assert run !in st.started;
    }
    DropKeepsStopped(st, rest);
  }

  lemma DropKeepsStopped(st: State, rest: seq<Entry>)
    requires rest != [] && StoppedOk(st.(queue := st.queue + rest)) && rest[0].run <= st.ids
    requires rest[0].run !in RunIds(st.queue) && rest[0].run !in RunIds(rest[1..])
    ensures StoppedOk(StopQueued(st, rest[0]).(queue := st.queue + rest[1..]))
  {
    var whole := st.queue + rest;
    assert whole[|st.queue|] == rest[0];
    forall e | e in st.queue + rest[1..]
      ensures e in whole && e.run != rest[0].run
    {
      if e in st.queue {
        QueuedRunListed(st.queue, e);
      } else {
        QueuedRunListed(rest[1..], e);
        assert e in rest;
      }
    }
  }

  lemma StopKeeps(cfg: Config, st: State, order: seq<SessionId>, target: Option<SessionId>, reason: SessionId -> string)
    requires Safe(cfg, st)
    ensures Safe(cfg, Stop(st, order, target, reason))
  {
    StopEachFrame(st, order, target, reason);
    var marked := StopEach(st, order, target, reason);
    assert |marked.active| == |st.active| by { assert |marked.active.Keys| == |st.active.Keys|; }
    assert Lineup(marked) == Lineup(st);
    assert RunsOk(marked);
    assert marked.(queue := [] + marked.queue) == marked by { assert [] + marked.queue == marked.queue; }
    StopQueueKeeps(marked.(queue := []), marked.queue, target);
    if st.queue == [] {
      assert Stop(st, order, target, reason).queue == [];
    }
  }

  lemma ReleaseOneKeeps(cfg: Config, st: State, s: SessionId)
    requires Safe(cfg, st)
    ensures Safe(cfg, ReleaseOne(cfg, st, s))
  {
    var reachable := st.(unreachable := st.unreachable - {s});
    assert Lineup(reachable) == Lineup(st);
    if !(At(st.pending, s) == [] || s in st.held || s in st.active) {
      TakeKeeps(reachable, s);
      var (taken, e) := Take(reachable, s);
      DispatchKeeps(cfg, taken, e);
    }
  }

  lemma {:induction false} ReleaseKeeps(cfg: Config, st: State, order: seq<SessionId>, onModel: set<SessionId>)
    requires Safe(cfg, st)
    ensures Safe(cfg, Release(cfg, st, order, onModel))
    decreases |order|
  {
    if order != [] {
      var s := order[0];
      if s in st.unreachable && s in onModel {
        ReleaseOneKeeps(cfg, st, s);
        ReleaseKeeps(cfg, ReleaseOne(cfg, st, s), order[1..], onModel);
      } else {
        ReleaseKeeps(cfg, st, order[1..], onModel);
      }
    }
  }

  lemma WaitKeeps(cfg: Config, st: State, waiting: State, s: SessionId, text: string)
    requires Safe(cfg, st)
    requires waiting == Wait(st, s, text).(held := waiting.held)
    ensures Safe(cfg, waiting) && At(waiting.pending, s) != []
  {
    assert Lineup(waiting) == Lineup(st);
  }

  lemma DirectKeeps(cfg: Config, st: State, s: SessionId, text: string)
    requires Safe(cfg, st)
    ensures var next := AppendDirect(st, s, text);
      Safe(cfg, Dispatch(cfg, next, Entry(s, next.ids, None)))
  {
    var next := AppendDirect(st, s, text);
    assert Lineup(next) == Lineup(st);
    assert Safe(cfg, next);
    DispatchKeeps(cfg, next, Entry(s, next.ids, None));
  }

  lemma ReclaimKeeps(cfg: Config, st: State, s: SessionId)
    requires Safe(cfg, st) && At(st.pending, s) != []
    ensures var (taken, e) := Take(st, s); Safe(cfg, Dispatch(cfg, taken, e))
  {
    TakeKeeps(st, s);
    var (taken, e) := Take(st, s);
    DispatchKeeps(cfg, taken, e);
  }

  lemma StatusKeeps(cfg: Config, st: State, s: SessionId, value: Status)
    requires Safe(cfg, st)
    ensures Safe(cfg, SetStatus(st, s, value))
  {
    assert Lineup(SetStatus(st, s, value)) == Lineup(st);
  }

  lemma SubmitKeeps(cfg: Config, st: State, s: SessionId, text: string, open: bool, prepared: bool)
    requires Safe(cfg, st)
    ensures Safe(cfg, Submit(cfg, st, s, text, open, prepared).0)
  {
    hide Safe, AppendDirect, Dispatch;
    if open && prepared {
      var waiting := Wait(st, s, text);
      WaitKeeps(cfg, st, waiting, s, text);
      if s in st.unreachable {
        StatusKeeps(cfg, waiting, s, Held);
      } else if s in st.held {
        var lifted := waiting.(held := st.held - {s});
        WaitKeeps(cfg, st, lifted, s, text);
        ReclaimKeeps(cfg, lifted, s);
      } else if !(s in st.active || IsRunning(st, s)) {
        DirectKeeps(cfg, st, s, text);
      }
    }
  }

  lemma NextKeeps(cfg: Config, st: State, step: Step)
    requires Safe(cfg, st)
    ensures Safe(cfg, Next(cfg, st, step))
  {
    match step
    case DoSubmit(s, text, open, prepared) => SubmitKeeps(cfg, st, s, text, open, prepared);
    case DoFinish(s, run, reason) => FinishKeeps(cfg, st, s, run, reason);
    case DoForceFinish(s, run) => ForceFinishKeeps(cfg, st, s, run);
    case DoStop(order, target, reason) => StopKeeps(cfg, st, order, target, reason);
    case DoRelease(order, onModel) => ReleaseKeeps(cfg, st, order, onModel);
    case DoHoldModel(s) => assert Lineup(HoldModel(st, s)) == Lineup(st);
    case DoSetStatus(s, value) => StatusKeeps(cfg, st, s, value);
  }

  lemma {:induction false} EveryRunIsSafe(cfg: Config, steps: seq<Step>)
    requires cfg.maxConcurrent >= 1
    ensures Safe(cfg, After(cfg, steps))
  {
    if steps != [] {
      EveryRunIsSafe(cfg, steps[..|steps| - 1]);
      NextKeeps(cfg, After(cfg, steps[..|steps| - 1]), steps[|steps| - 1]);
    }
  }

  /**
    Main theorem, for every run of the scheduler and whatever else writes run statuses: at most
    `maxConcurrent` runs are active, nothing is queued while a slot is free, queued run ids
    increase towards the back, runs were started in strictly increasing run-id order and every
    queued run is newer than every started one, and no run id was reported stopped twice.
   */
  lemma DispatchOrder(cfg: Config, steps: seq<Step>)
    requires cfg.maxConcurrent >= 1
    ensures var st := After(cfg, steps);
      && |st.active| <= cfg.maxConcurrent
      && (st.queue != [] ==> |st.active| == cfg.maxConcurrent)
      && Increasing(RunIds(st.queue))
      && Increasing(st.started)
      && (forall r, q :: r in st.started && q in RunIds(st.queue) ==> r < q)
      && Distinct(st.stopped)
  {
    EveryRunIsSafe(cfg, steps);
    SplitIncreasing(After(cfg, steps).started, RunIds(After(cfg, steps).queue));
  }

  // ----- how states evolve ------------------------------------------------------------

  /**
    The journals only grow, and whatever is active later was active before or was started in
    between.  Reflexive and transitive, so it relates any two points of a run.
   */
  ghost predicate Evolves(a: State, b: State) {
    && a.started <= b.started
    && a.stopped <= b.stopped
    && (forall t :: t in b.active ==>
         || (t in a.active && a.active[t].run == b.active[t].run)
         || b.active[t].run in b.started[|a.started|..])
  }

  lemma EvolvesTrans(a: State, b: State, c: State)
    requires Evolves(a, b) && Evolves(b, c)
    ensures Evolves(a, c)
  {
    assert c.started[|a.started|..] == b.started[|a.started|..] + c.started[|b.started|..];
  }

  lemma StartEvolves(st: State, e: Entry)
    ensures Evolves(st, Start(st, e))
  {
    var next := Start(st, e);
    assert next.started[|st.started|..] == [e.run as int];
  }

  /** Steps that neither start nor stop a run. */
  lemma QuietEvolves(a: State, b: State)
    requires b.started == a.started && a.stopped <= b.stopped
    requires forall t :: t in b.active ==> t in a.active && a.active[t].run == b.active[t].run
    ensures Evolves(a, b)
  {
  }

  lemma {:induction false} DrainEvolves(cfg: Config, st: State)
    ensures Evolves(st, Drain(cfg, st))
    decreases |st.queue|
  {
    if st.queue != [] && |st.active| < cfg.maxConcurrent {
      var popped := st.(queue := st.queue[1..]);
      var begun := Start(popped, st.queue[0]);
      StartEvolves(popped, st.queue[0]);
      DrainEvolves(cfg, begun);
      EvolvesTrans(popped, begun, Drain(cfg, begun));
    } else {
      QuietEvolves(st, st);
    }
  }

  lemma DispatchEvolves(cfg: Config, a: State, st: State, e: Entry)
    requires st.started == a.started && st.stopped == a.stopped && st.active == a.active
    ensures Evolves(a, Dispatch(cfg, st, e))
  {
    if |st.active| < cfg.maxConcurrent {
      StartEvolves(st, e);
    } else {
      QuietEvolves(a, Enqueue(st, e));
    }
  }

  lemma SettleEvolves(cfg: Config, a: State, st: State, s: SessionId, run: nat)
    requires st.started == a.started && st.stopped == a.stopped
    requires forall t :: t in st.active ==> t in a.active && a.active[t].run == st.active[t].run
    ensures Evolves(a, Settle(cfg, st, s, run))
  {
    var stopped := SetStatus(st, s, if QueueHeld(st, s) then Held else Idle).(stopped := st.stopped + [run]);
    QuietEvolves(a, stopped);
    DrainEvolves(cfg, stopped);
    EvolvesTrans(a, stopped, Drain(cfg, stopped));
  }

  lemma {:induction false} StopQueueEvolves(st: State, rest: seq<Entry>, target: Option<SessionId>)
    ensures StopQueue(st, rest, target).active == st.active
    ensures StopQueue(st, rest, target).started == st.started
    ensures st.stopped <= StopQueue(st, rest, target).stopped
    decreases |rest|
  {
    if rest != [] {
      if Targets(target, rest[0].session) {
        StopQueueEvolves(StopQueued(st, rest[0]), rest[1..], target);
      } else {
        StopQueueEvolves(st.(queue := st.queue + [rest[0]]), rest[1..], target);
      }
    }
  }

  lemma ReleaseOneEvolves(cfg: Config, st: State, s: SessionId)
    ensures Evolves(st, ReleaseOne(cfg, st, s))
  {
    if !(At(st.pending, s) == [] || s in st.held || s in st.active) {
      var (taken, e) := Take(st.(unreachable := st.unreachable - {s}), s);
      DispatchEvolves(cfg, st, taken, e);
    } else {
      QuietEvolves(st, ReleaseOne(cfg, st, s));
    }
  }

  lemma {:induction false} ReleaseEvolves(cfg: Config, st: State, order: seq<SessionId>, onModel: set<SessionId>)
    ensures Evolves(st, Release(cfg, st, order, onModel))
    decreases |order|
  {
    if order == [] {
      QuietEvolves(st, st);
    } else {
      var s := order[0];
      if s in st.unreachable && s in onModel {
        var next := ReleaseOne(cfg, st, s);
        ReleaseOneEvolves(cfg, st, s);
        ReleaseEvolves(cfg, next, order[1..], onModel);
        EvolvesTrans(st, next, Release(cfg, next, order[1..], onModel));
      } else {
        ReleaseEvolves(cfg, st, order[1..], onModel);
      }
    }
  }

  lemma SubmitEvolves(cfg: Config, st: State, s: SessionId, text: string, open: bool, prepared: bool)
    ensures Evolves(st, Submit(cfg, st, s, text, open, prepared).0)
  {
    hide Evolves, Dispatch;
    QuietEvolves(st, st);
    if open && prepared {
      if s in st.unreachable {
        QuietEvolves(st, SetStatus(Wait(st, s, text), s, Held));
      } else if s in st.held {
        var waiting := Wait(st, s, text).(held := st.held - {s});
        var (taken, e) := Take(waiting, s);
        DispatchEvolves(cfg, st, taken, e);
      } else if s in st.active || IsRunning(st, s) {
        QuietEvolves(st, Wait(st, s, text));
      } else {
        var next := AppendDirect(st, s, text);
        DispatchEvolves(cfg, st, next, Entry(s, next.ids, None));
      }
    }
  }

  lemma FinishEvolves(cfg: Config, st: State, s: SessionId, run: nat, reason: string)
    ensures Evolves(st, Finish(cfg, st, s, run, reason))
  {
    if Owns(st, s, run) {
      var freed := st.(
        active := st.active - {s},
        unreachable := if FinalReason(st.active[s], reason) == "model_unreachable" then st.unreachable + {s} else st.unreachable);
      SettleEvolves(cfg, st, HandOver(freed, s), s, run);
    } else {
      QuietEvolves(st, st);
    }
  }

  lemma NextEvolves(cfg: Config, st: State, step: Step)
    ensures Evolves(st, Next(cfg, st, step))
  {
    match step
    case DoSubmit(s, text, open, prepared) => SubmitEvolves(cfg, st, s, text, open, prepared);
    case DoFinish(s, run, reason) => FinishEvolves(cfg, st, s, run, reason);
    case DoForceFinish(s, run) =>
      if Owns(st, s, run) {
        SettleEvolves(cfg, st, st.(active := st.active - {s}), s, run);
      } else {
        QuietEvolves(st, st);
      }
    case DoStop(order, target, reason) =>
      StopEachFrame(st, order, target, reason);
      var marked := StopEach(st, order, target, reason);
      StopQueueEvolves(marked.(queue := []), marked.queue, target);
      QuietEvolves(st, Stop(st, order, target, reason));
    case DoRelease(order, onModel) => ReleaseEvolves(cfg, st, order, onModel);
    case DoHoldModel(s) => QuietEvolves(st, HoldModel(st, s));
    case DoSetStatus(s, value) => QuietEvolves(st, SetStatus(st, s, value));
  }

  lemma {:induction false} RunEvolves(cfg: Config, steps: seq<Step>, more: seq<Step>)
    ensures Evolves(After(cfg, steps), After(cfg, steps + more))
    decreases |more|
  {
    if more == [] {
      assert steps + more == steps;
      QuietEvolves(After(cfg, steps), After(cfg, steps));
    } else {
      var fewer := more[..|more| - 1];
      assert (steps + more)[..|steps + more| - 1] == steps + fewer;
      RunEvolves(cfg, steps, fewer);
      NextEvolves(cfg, After(cfg, steps + fewer), more[|more| - 1]);
      EvolvesTrans(After(cfg, steps), After(cfg, steps + fewer), After(cfg, steps + more));
    }
  }

  /**
    A started run that left `active` (it finished, was force-finished, or another run of its session
    took its place) can never change anything again: at any later point of the run its completion,
    and a late force-finish of it, leave the whole scheduler state unchanged.
   */
  lemma LateCompletionIsFenced(cfg: Config, steps: seq<Step>, more: seq<Step>, s: SessionId, run: nat, reason: string)
    requires cfg.maxConcurrent >= 1
    requires run in After(cfg, steps).started
    requires forall t :: !Owns(After(cfg, steps), t, run)
    ensures Finish(cfg, After(cfg, steps + more), s, run, reason) == After(cfg, steps + more)
    ensures ForceFinish(cfg, After(cfg, steps + more), s, run) == After(cfg, steps + more)
  {
    var a, b := After(cfg, steps), After(cfg, steps + more);
    RunEvolves(cfg, steps, more);
    EveryRunIsSafe(cfg, steps + more);
    SplitIncreasing(b.started, RunIds(b.queue));
    assert b.started == a.started + b.started[|a.started|..];
    SplitIncreasing(a.started, b.started[|a.started|..]);
    assert !Owns(a, s, run);
  }
}
