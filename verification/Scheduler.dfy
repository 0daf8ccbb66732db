/**
  The scheduler object.  Each public method is one section that runs under the scheduler's mutex.  It is
  proved to take the object to the next state of the state machine, so after any sequence of calls the
  object is where the state machine is, and what is proved of every run holds of it.
 */
module Scheduler {
  import opened Prelude
  import opened SchedulerSpec
  import Runs = SchedulerRuns
  import Messages = SchedulerMessages
  import Holds = SchedulerHolds
  import Says = SchedulerAnswers

  class RunScheduler {
    const cfg: Config
    var active: map<SessionId, Active>
    var queue: seq<Entry>
    var pending: map<SessionId, seq<Message>>
    var held: set<SessionId>
    var unreachable: set<SessionId>
    var ids: nat
    var status: map<SessionId, Status>
    var nextMessage: nat
    var accepted: map<SessionId, seq<Line>>
    var transcript: map<SessionId, seq<Line>>
    var discarded: map<SessionId, seq<Message>>
    var started: seq<int>
    var stopped: seq<int>
    ghost var steps: seq<Step>  // the sections executed so far

    function View(): State
      reads this
    {
      State(active, queue, pending, held, unreachable, ids, status, nextMessage, accepted, transcript, discarded, started, stopped)
    }

    ghost predicate Valid()
      reads this
    {
      View() == After(cfg, steps)
    }

    /** What every object in use satisfies. */
    lemma AlwaysHolds()
      requires Valid() && cfg.maxConcurrent >= 1
      ensures Runs.Safe(cfg, View())
      ensures Messages.Ledger(View(), queue)
      ensures Holds.HeldOk(View())
      ensures Holds.HarmlessRun(cfg, steps) ==> Holds.AllOk(View(), queue)
    {
      Runs.EveryRunIsSafe(cfg, steps);
      Messages.EveryRunBalances(cfg, steps);
      Holds.EveryRunHeld(cfg, steps);
      if Holds.HarmlessRun(cfg, steps) {
        Holds.EveryRunOk(cfg, steps);
      }
    }

    lemma AfterPush(before: seq<Step>, step: Step)
      ensures After(cfg, before + [step]) == Next(cfg, After(cfg, before), step)
    {
      assert (before + [step])[..|before|] == before;
    }

    constructor (cfg: Config)
      ensures this.cfg == cfg && Valid() && steps == []
    {
      this.cfg := cfg;
      steps := [];
      active, queue, pending, held, unreachable := map[], [], map[], {}, {};
      ids, status, nextMessage := 0, map[], 0;
      accepted, transcript, discarded, started, stopped := map[], map[], map[], [], [];
    }

    static method IdenticalPendingPosition(waiting: seq<Message>, text: string) returns (position: nat)
      ensures position == IdenticalPosition(waiting, text)
      ensures position == 0 ==> forall i :: 0 <= i < |waiting| ==> waiting[i].text != text
      ensures position > 0 ==> position <= |waiting| && waiting[position - 1].text == text
    {
      var index := 0;
      while index < |waiting|
        invariant 0 <= index <= |waiting|
        invariant forall i :: 0 <= i < index ==> waiting[i].text != text
        invariant IdenticalPosition(waiting, text) ==
          (var rest := IdenticalPosition(waiting[index..], text); if rest == 0 then 0 else index + rest)
      {
        if waiting[index].text == text {
          return index + 1;
        }
        index := index + 1;
      }
      return 0;
    }

    method StartLocked(e: Entry)
      modifies this
      ensures steps == old(steps) && View() == Start(old(View()), e)
    {
      if e.body.Some? {
        transcript := transcript[e.session := At(transcript, e.session) + [Line(e.body.value, true)]];
      }
      active := active[e.session := Active(e.run, "")];
      status := status[e.session := Running];
      started := started + [e.run];
    }

    method EnqueueLocked(e: Entry)
      modifies this
      ensures steps == old(steps) && View() == Enqueue(old(View()), e)
    {
      queue := queue + [e];
      status := status[e.session := Queued];
    }

    /** Runner.QueueUserAttachments followed by the append to the session's pending list. */
    method WaitLocked(s: SessionId, text: string)
      modifies this
      ensures steps == old(steps) && View() == Wait(old(View()), s, text)
    {
      var message := Message(nextMessage, text);
      nextMessage := nextMessage + 1;
      accepted := accepted[s := At(accepted, s) + [Line(message, true)]];
      pending := pending[s := At(pending, s) + [message]];
    }

    method TakeLocked(s: SessionId) returns (e: Entry)
      requires At(pending, s) != []
      modifies this
      ensures steps == old(steps) && (View(), e) == Take(old(View()), s)
    {
      var next := At(pending, s)[0];
      pending := pending[s := At(pending, s)[1..]];
      ids := ids + 1;
      e := Entry(s, ids, Some(next));
    }

    method DispatchLocked(e: Entry)
      modifies this
      ensures steps == old(steps) && View() == Dispatch(cfg, old(View()), e)
    {
      if |active| < cfg.maxConcurrent {
        StartLocked(e);
      } else {
        EnqueueLocked(e);
      }
    }

    method SubmitWhileUnreachable(s: SessionId, text: string, prepared: bool) returns (outcome: Outcome)
      modifies this
      ensures steps == old(steps) && (View(), outcome) == SubmitUnreachable(old(View()), s, text, prepared)
    {
      var position := IdenticalPendingPosition(At(pending, s), text);
      if position > 0 {
        return Duplicate(position);
      }
      if !prepared {
        return Rejected;
      }
      WaitLocked(s, text);
      status := status[s := Status.Held];
      return Waiting(|At(pending, s)|);
    }

    method SubmitWhileHeld(s: SessionId, text: string, prepared: bool) returns (outcome: Outcome)
      modifies this
      ensures steps == old(steps) && (View(), outcome) == SubmitHeld(cfg, old(View()), s, text, prepared)
    {
      if !prepared {
        return Rejected;
      }
      WaitLocked(s, text);
      var position := |At(pending, s)|;
      held := held - {s};
      var next := TakeLocked(s);
      DispatchLocked(next);
      return Waiting(position);
    }

    method SubmitWhileBusy(s: SessionId, text: string, prepared: bool) returns (outcome: Outcome)
      modifies this
      ensures steps == old(steps) && (View(), outcome) == SubmitBusy(cfg, old(View()), s, text, prepared)
    {
      var position := IdenticalPendingPosition(At(pending, s), text);
      if position > 0 {
        return Duplicate(position);
      }
      if cfg.queueDepth > 0 && |At(pending, s)| >= cfg.queueDepth {
        return Rejected;
      }
      if !prepared {
        return Rejected;
      }
      WaitLocked(s, text);
      return Waiting(|At(pending, s)|);
    }

    /** Runner.AddUserAttachments and the next run id. */
    method AppendLocked(s: SessionId, text: string)
      modifies this
      ensures steps == old(steps) && View() == AppendDirect(old(View()), s, text)
    {
      var line := Line(Message(nextMessage, text), false);
      nextMessage := nextMessage + 1;
      accepted := accepted[s := At(accepted, s) + [line]];
      transcript := transcript[s := At(transcript, s) + [line]];
      ids := ids + 1;
    }

    method SubmitWhileIdle(s: SessionId, text: string, prepared: bool) returns (outcome: Outcome)
      modifies this
      ensures steps == old(steps) && (View(), outcome) == SubmitDirect(cfg, old(View()), s, text, prepared)
    {
      hide Dispatch;
      if !prepared {
        return Rejected;
      }
      AppendLocked(s, text);
      assert View().active == old(View()).active && View().queue == old(View()).queue;
      hide AppendDirect;
      outcome := if |active| < cfg.maxConcurrent then StartedRun(ids) else QueuedRun(ids, |queue| + 1);
      DispatchLocked(Entry(s, ids, None));
    }

    /** A message for a session: rejected, absorbed, put to wait, or given a run. */
    method SubmitMessage(s: SessionId, text: string, open: bool, prepared: bool) returns (outcome: Outcome)
      requires Valid()
      modifies this
      ensures Valid() && steps == old(steps) + [DoSubmit(s, text, open, prepared)]
      ensures Says.Answers(cfg, old(View()), s, text, open, prepared, View(), outcome)
    {
      Says.SubmitAnswers(cfg, View(), s, text, open, prepared);
      if !open {
        outcome := Rejected;
      } else if s in unreachable {
        outcome := SubmitWhileUnreachable(s, text, prepared);
      } else if s in held {
        outcome := SubmitWhileHeld(s, text, prepared);
      } else if s in active || IsRunning(View(), s) {
        outcome := SubmitWhileBusy(s, text, prepared);
      } else {
        outcome := SubmitWhileIdle(s, text, prepared);
      }
      hide Says.Answers, After;
      AfterPush(steps, DoSubmit(s, text, open, prepared));
      steps := steps + [DoSubmit(s, text, open, prepared)];
    }

    /** The draining loop shared by finish and forceFinish. */
    method DrainLocked()
      modifies this
      ensures steps == old(steps) && View() == Drain(cfg, old(View()))
    {
      while queue != [] && |active| < cfg.maxConcurrent
        invariant steps == old(steps) && Drain(cfg, View()) == Drain(cfg, old(View()))
        decreases |queue|
      {
        var next := queue[0];
        queue := queue[1..];
        StartLocked(next);
      }
    }

    /** The common end of finish and forceFinish once the run left `active`. */
    method SettleLocked(s: SessionId, run: nat)
      modifies this
      ensures steps == old(steps) && View() == Settle(cfg, old(View()), s, run)
    {
      var queueHeld := (s in held || s in unreachable) && At(pending, s) != [];
      status := status[s := if queueHeld then Status.Held else Idle];
      stopped := stopped + [run];
      DrainLocked();
    }

    method HandOverLocked(s: SessionId)
      modifies this
      ensures steps == old(steps) && View() == HandOver(old(View()), s)
    {
      if At(pending, s) != [] && s !in held && s !in unreachable {
        var next := TakeLocked(s);
        EnqueueLocked(next);
      }
    }

    /** A run's goroutine reports its completion. */
    method FinishRun(s: SessionId, run: nat, reason: string)
      requires Valid()
      modifies this
      ensures Valid() && steps == old(steps) + [DoFinish(s, run, reason)]
    {
      hide HandOver, Settle, After;
      if s in active && active[s].run == run {
        var final := if active[s].stopReason != "" then active[s].stopReason else reason;
        active := active - {s};
        if final == "model_unreachable" {
          unreachable := unreachable + {s};
        }
        HandOverLocked(s);
        SettleLocked(s, run);
      }
      assert View() == Finish(cfg, old(View()), s, run, reason);
      hide Finish;
      AfterPush(steps, DoFinish(s, run, reason));
      steps := steps + [DoFinish(s, run, reason)];
    }

    /** Stop gave up waiting for the run's goroutine. */
    method ForceFinishRun(s: SessionId, run: nat)
      requires Valid()
      modifies this
      ensures Valid() && steps == old(steps) + [DoForceFinish(s, run)]
    {
      if s in active && active[s].run == run {
        active := active - {s};
        SettleLocked(s, run);
      }
      AfterPush(steps, DoForceFinish(s, run));
      steps := steps + [DoForceFinish(s, run)];
    }

    /** First loop of Stop for one active run. */
    method StopActiveRun(s: SessionId, reason: string)
      requires s in active
      modifies this`active, this`held, this`status
      ensures View() == StopActive(old(View()), s, reason)
    {
      active := active[s := active[s].(stopReason := reason)];
      if At(pending, s) != [] {
        held := held + {s};
      }
      status := status[s := Stopping];
    }

    /** First loop of Stop.  `order` is the order in which Go happens to walk the active map. */
    method StopActiveRuns(order: seq<SessionId>, target: Option<SessionId>, abortReason: SessionId -> string) returns (ended: seq<SessionId>)
      requires forall s :: s in order ==> s in active
      modifies this`active, this`held, this`status
      ensures View() == StopEach(old(View()), order, target, abortReason)
      ensures forall s :: s in ended <==> Targets(target, s) && s in order
    {
      ended := [];
      var i := 0;
      while i < |order|
        invariant 0 <= i <= |order|
        invariant StopEach(View(), order[i..], target, abortReason) == StopEach(old(View()), order, target, abortReason)
        invariant active.Keys == old(active.Keys)
        invariant forall s :: s in ended <==> Targets(target, s) && s in order[..i]
      {
        var s := order[i];
        assert order[i..][1..] == order[i + 1..] && order[..i + 1] == order[..i] + [s];
        if Targets(target, s) {
          StopActiveRun(s, abortReason(s));
          ended := ended + [s];
        }
        i := i + 1;
      }
      assert order[..i] == order;
    }

    /** Second loop of Stop for one entry that is dropped. */
    method StopQueuedRun(e: Entry)
      modifies this`held, this`discarded, this`status, this`stopped
      ensures View() == StopQueued(old(View()), e)
    {
      if At(pending, e.session) != [] {
        held := held + {e.session};
      }
      if e.body.Some? {
        discarded := discarded[e.session := At(discarded, e.session) + [e.body.value]];
      }
      status := status[e.session := if e.session in held then Status.Held else Idle];
      stopped := stopped + [e.run];
    }

    /** Second loop of Stop: drop the targeted entries and keep the others in order. */
    method StopQueuedRuns(target: Option<SessionId>) returns (ended: seq<SessionId>)
      modifies this
      ensures steps == old(steps) && View() == StopQueue(old(View()).(queue := []), old(queue), target)
      ensures forall s :: s in ended <==> Targets(target, s) && Holds.InQueue(old(queue), s)
    {
      ended := [];
      var entries := queue;
      queue := [];
      var i := 0;
      while i < |entries|
        invariant 0 <= i <= |entries| && steps == old(steps)
        invariant StopQueue(View(), entries[i..], target) == StopQueue(old(View()).(queue := []), entries, target)
        invariant forall s :: s in ended <==> Targets(target, s) && Holds.InQueue(entries[..i], s)
      {
        var e := entries[i];
        assert entries[i..][1..] == entries[i + 1..];
        InQueueGrows(entries, i);
        if Targets(target, e.session) {
          StopQueuedRun(e);
          ended := ended + [e.session];
        } else {
          queue := queue + [e];
        }
        i := i + 1;
      }
      assert entries[..i] == entries;
    }

    /** The lock-held part of Stop; the result lists every session whose run it ended or is ending. */
    method StopRuns(order: seq<SessionId>, target: Option<SessionId>, abortReason: SessionId -> string) returns (ended: seq<SessionId>)
      requires Valid() && forall s :: s in order <==> s in active
      modifies this
      ensures Valid() && steps == old(steps) + [DoStop(order, target, abortReason)]
      ensures forall s :: s in ended <==> Targets(target, s) && (s in old(active) || Holds.InQueue(old(queue), s))
    {
      var running := StopActiveRuns(order, target, abortReason);
      var queued := StopQueuedRuns(target);
      ended := running + queued;
      AfterPush(steps, DoStop(order, target, abortReason));
      steps := steps + [DoStop(order, target, abortReason)];
    }

    static lemma InQueueGrows(entries: seq<Entry>, i: nat)
      requires i < |entries|
      ensures forall s :: Holds.InQueue(entries[..i + 1], s) <==> Holds.InQueue(entries[..i], s) || entries[i].session == s
    {
      assert entries[..i + 1] == entries[..i] + [entries[i]];
      forall s
        ensures Holds.InQueue(entries[..i + 1], s) <==> Holds.InQueue(entries[..i], s) || entries[i].session == s
      {
        Holds.InQueueSnoc(entries[..i], entries[i], s);
      }
    }

    /** `order` is the order in which Go happens to walk the unreachable map. */
    method ReleaseModel(order: seq<SessionId>, onModel: set<SessionId>)
      requires Valid()
      modifies this
      ensures Valid() && steps == old(steps) + [DoRelease(order, onModel)]
    {
      var i := 0;
      while i < |order|
        invariant 0 <= i <= |order| && steps == old(steps)
        invariant Release(cfg, View(), order[i..], onModel) == Release(cfg, old(View()), order, onModel)
      {
        var s := order[i];
        assert order[i..][1..] == order[i + 1..];
        if s in unreachable && s in onModel {
          unreachable := unreachable - {s};
          if At(pending, s) != [] && s !in held && s !in active {
            var next := TakeLocked(s);
            DispatchLocked(next);
          }
        }
        i := i + 1;
      }
      AfterPush(steps, DoRelease(order, onModel));
      steps := steps + [DoRelease(order, onModel)];
    }

    /** The session waits for its model from now on. */
    method HoldModelOf(s: SessionId)
      requires Valid()
      modifies this`unreachable, this`steps
      ensures Valid() && steps == old(steps) + [DoHoldModel(s)] && unreachable == old(unreachable) + {s}
    {
      AfterPush(steps, DoHoldModel(s));
      unreachable := unreachable + {s};
      steps := steps + [DoHoldModel(s)];
    }

    /** The gate, the runner or the registry writes the session's run status. */
    method StatusWritten(s: SessionId, value: Status)
      requires Valid()
      modifies this`status, this`steps
      ensures Valid() && steps == old(steps) + [DoSetStatus(s, value)] && status == old(status)[s := value]
    {
      AfterPush(steps, DoSetStatus(s, value));
      status := status[s := value];
      steps := steps + [DoSetStatus(s, value)];
    }
  }
}
