/**
  The control skeleton of a run: how many requests it sends, how many tools it executes, how large
  its requests may be, and that it ends.  Everything the run does not control is an input: a round of
  the world decides about cancellation, measurements, model responses and tool outcomes.
 */
module RunLoop {
  import opened Prelude
  import opened Transcript
  import Fit = CompactToFit

  const MinimumOutputFloor := 4096
  const DefaultMaxToolCalls := 1000

  datatype Profile = Profile(nCtx: nat, reserveOutput: int)

  datatype Limits = Limits(maxTurns: int, maxToolCalls: int)

  function Min(a: int, b: int): int {
    if a < b then a else b
  }

  /** A 10% margin, rounded up, when the prompt was only estimated. */
  function GuardedPromptTokens(usedEst: nat, estimated: bool): nat {
    if estimated then (11 * usedEst + 9) / 10 else usedEst
  }

  function OutputFloor(p: Profile): int {
    Min(MinimumOutputFloor, p.nCtx)
  }

  function RequestTokenLimit(p: Profile, promptTokens: int): int {
    Max(0, Min(Max(OutputFloor(p), p.reserveOutput), p.nCtx - promptTokens))
  }

  datatype Request = Request(prompt: int, maxTokens: int)

  /** The window of a request: prompt and output fit the context, and the output floor is granted. */
  predicate Fits(p: Profile, r: Request) {
    r.prompt + r.maxTokens <= p.nCtx && r.maxTokens >= Min(4096, p.nCtx)
  }

  /** The test before sending is exactly what the window needs. */
  lemma SendTestIsExact(p: Profile, prompt: nat)
    ensures prompt + OutputFloor(p) <= p.nCtx <==> Fits(p, Request(prompt, RequestTokenLimit(p, prompt)))
  {
  }

  /** What is asked for is the largest output that fits the window and does not exceed both the reserve and the floor. */
  lemma LimitIsLargest(p: Profile, prompt: nat, n: nat)
    requires prompt <= p.nCtx
    ensures n <= RequestTokenLimit(p, prompt) <==> prompt + n <= p.nCtx && (n <= p.reserveOutput || n <= Min(4096, p.nCtx))
  {
  }

  /** An estimated prompt is guarded by the least whole number of tokens that is 10% above it. */
  lemma GuardIsTight(usedEst: nat)
    ensures GuardedPromptTokens(usedEst, false) == usedEst
    ensures var g := GuardedPromptTokens(usedEst, true); 10 * g >= 11 * usedEst && 10 * (g - 1) < 11 * usedEst
  {
  }

  datatype Finish = Stop | Length | ToolCalls

  datatype Response = Response(finish: Finish, calls: nat, firstTool: string)

  /** How measuring the prompt or calling the model went wrong, if it did. */
  datatype Failure = NoFailure | CancelledThere | ModelGone | OtherFailure

  /** What the guards say about the executed calls. */
  datatype Verdict = GoOn | StopTheRun | CancelledWaiting

  /** One pass of the loop as the world decides it; `cancelledAfter` counts the calls executed before a cancellation. */
  datatype Round = Round(
    cancelled: bool, mailboxStop: bool, hasProfile: bool,
    measuring: Failure, usedEst: nat, estimated: bool,
    target: int, overflow: bool, summaries: seq<Message>,
    calling: Failure, response: Response,
    cancelledAfter: Option<nat>, verdict: Verdict, after: seq<Message>)

  /** Summaries are summaries, and token counts are a fixed function of content. */
  ghost predicate RoundOk(env: Env, r: Round) {
    Fit.Summaries(env, r.summaries) && Fit.Counted(env, r.after)
  }

  datatype Reason =
    | Cancelled | MailboxStop | NoProfile | ModelUnreachable | ModelError | ContextCeiling | LengthStop | Done | ToolBudget
    | Guarded | TurnCeiling

  function ToolLimit(limits: Limits): int {
    if limits.maxToolCalls <= 0 then DefaultMaxToolCalls else limits.maxToolCalls
  }

  /** At least one request is always allowed. */
  function TurnLimit(limits: Limits): int {
    Max(1, limits.maxTurns)
  }

  // ----- what a round amounts to ----------------------------------------------------------------------

  function GuardOf(r: Round): nat {
    GuardedPromptTokens(r.usedEst, r.estimated)
  }

  function RequestOf(p: Profile, r: Round): Request {
    Request(GuardOf(r), RequestTokenLimit(p, GuardOf(r)))
  }

  /** The pass gets as far as measuring the prompt. */
  predicate Begun(r: Round) {
    !r.cancelled && !r.mailboxStop && r.hasProfile
  }

  predicate Measured(r: Round) {
    Begun(r) && r.measuring == NoFailure
  }

  predicate LeavesFloor(p: Profile, r: Round) {
    GuardOf(r) + OutputFloor(p) <= p.nCtx
  }

  /** A request is sent. */
  predicate Sent(p: Profile, r: Round) {
    Measured(r) && LeavesFloor(p, r)
  }

  predicate Answered(p: Profile, r: Round) {
    Sent(p, r) && r.calling == NoFailure
  }

  /** The output limit cut off a tool call. */
  predicate Truncated(r: Round) {
    r.response.finish == Length && r.response.calls > 0
  }

  /** A final answer instead of tool calls. */
  predicate Final(r: Round) {
    r.response.calls == 0 && r.response.finish != ToolCalls
  }

  /** How many of the round's calls are executed before a cancellation, if there is one. */
  function Completed(r: Round): nat {
    if r.cancelledAfter.Some? && r.cancelledAfter.value < r.response.calls then r.cancelledAfter.value else r.response.calls
  }

  // ----- the run so far ---------------------------------------------------------------------------------

  /** What earlier passes left behind; `used` counts the executed calls, `retryTool` names a truncated call being retried. */
  datatype Progress = Progress(messages: seq<Message>, requests: seq<Request>, used: nat, retryTool: string, repaired: bool, retried: nat)

  /** The retry of a truncated call brought that call again, if one was asked for. */
  predicate RetryMet(h: Progress, r: Round) {
    h.retryTool == "" || (r.response.calls > 0 && r.response.firstTool == h.retryTool)
  }

  /** The round's calls are executed. */
  predicate RunsTools(limits: Limits, p: Profile, h: Progress, r: Round) {
    Answered(p, r) && !Truncated(r) && RetryMet(h, r) && !Final(r) && h.used + r.response.calls <= ToolLimit(limits)
  }

  function CompactionOf(env: Env, h: Progress, r: Round): Result {
    Fit.Compact(env, h.messages, r.usedEst, r.target, r.overflow, r.summaries)
  }

  /** Why the run stops in this round, or None when it goes on. */
  function Ending(env: Env, limits: Limits, p: Profile, h: Progress, r: Round): Option<Reason> {
    if r.cancelled then Some(Cancelled)
    else if r.mailboxStop then Some(MailboxStop)
    else if !r.hasProfile then Some(NoProfile)
    else if r.measuring != NoFailure then
      if r.measuring == CancelledThere then Some(Cancelled)
      else if !h.repaired && Repair(env, h.messages).changed then None
      else if r.measuring == ModelGone then Some(ModelUnreachable) else Some(ModelError)
    else if !LeavesFloor(p, r) then
      if CompactionOf(env, h, r).changed then None else Some(ContextCeiling)
    else if r.calling != NoFailure then
      if r.calling == CancelledThere then Some(Cancelled) else if r.calling == ModelGone then Some(ModelUnreachable) else Some(ModelError)
    else if Truncated(r) then
      if h.retryTool != "" || r.response.firstTool == "" then Some(LengthStop) else None
    else if !RetryMet(h, r) then Some(LengthStop)
    else if Final(r) then
      if r.response.finish == Length then Some(LengthStop) else Some(Done)
    else if h.used + r.response.calls > ToolLimit(limits) then Some(ToolBudget)
    else if r.cancelledAfter.Some? || r.verdict == CancelledWaiting then Some(Cancelled)
    else if r.verdict == StopTheRun then Some(Guarded)
    else if |h.requests| + 1 >= limits.maxTurns then Some(TurnCeiling)
    else None
  }

  /** What a round that goes on leaves behind. */
  function Advance(env: Env, p: Profile, h: Progress, r: Round): Progress {
    if r.measuring != NoFailure then h.(messages := Repair(env, h.messages).messages, repaired := true)
    else if !LeavesFloor(p, r) then h.(messages := CompactionOf(env, h, r).messages)
    else if Truncated(r) then h.(requests := h.requests + [RequestOf(p, r)], retryTool := r.response.firstTool, retried := h.retried + 1)
    else h.(requests := h.requests + [RequestOf(p, r)], retryTool := "", used := h.used + r.response.calls, messages := r.after)
  }

  /** The run after `k` passes that all went on. */
  function ProgressAt(env: Env, p: Profile, start: seq<Message>, world: nat -> Round, k: nat): Progress {
    if k == 0 then Progress(start, [], 0, "", false, 0)
    else Advance(env, p, ProgressAt(env, p, start, world, k - 1), world(k - 1))
  }

  /** The first `k` passes went on. */
  ghost predicate WentOn(env: Env, limits: Limits, p: Profile, start: seq<Message>, world: nat -> Round, k: nat) {
    forall i :: 0 <= i < k ==> EndingAt(env, limits, p, start, world, i) == None
  }

  function EndingAt(env: Env, limits: Limits, p: Profile, start: seq<Message>, world: nat -> Round, i: nat): Option<Reason> {
    Ending(env, limits, p, ProgressAt(env, p, start, world, i), world(i))
  }

  // ----- what the reasons and counts mean ----------------------------------------------------------------

  /** Each reason, exactly when it is given; and the run goes on exactly after a repair, a compaction, a first truncation or a turn of tools. */
  lemma ReasonsMean(env: Env, limits: Limits, p: Profile, h: Progress, r: Round)
    ensures var e := Ending(env, limits, p, h, r); var tools := RunsTools(limits, p, h, r); var repairable := !h.repaired && Repair(env, h.messages).changed;
      && (e == Some(Cancelled) <==>
            || r.cancelled
            || (Begun(r) && r.measuring == CancelledThere)
            || (Sent(p, r) && r.calling == CancelledThere)
            || (tools && (r.cancelledAfter.Some? || r.verdict == CancelledWaiting)))
      && (e == Some(MailboxStop) <==> !r.cancelled && r.mailboxStop)
      && (e == Some(NoProfile) <==> !r.cancelled && !r.mailboxStop && !r.hasProfile)
      && (e == Some(ModelUnreachable) <==>
            (Begun(r) && r.measuring == ModelGone && !repairable) || (Sent(p, r) && r.calling == ModelGone))
      && (e == Some(ModelError) <==>
            (Begun(r) && r.measuring == OtherFailure && !repairable) || (Sent(p, r) && r.calling == OtherFailure))
      && (e == Some(ContextCeiling) <==> Measured(r) && GuardOf(r) + OutputFloor(p) > p.nCtx && !CompactionOf(env, h, r).changed)
      && (e == Some(LengthStop) <==>
            Answered(p, r) &&
            ( || (Truncated(r) && (h.retryTool != "" || r.response.firstTool == ""))
              || (!Truncated(r) && !RetryMet(h, r))
              || (r.response.calls == 0 && r.response.finish == Length)))
      && (e == Some(Done) <==> Answered(p, r) && h.retryTool == "" && r.response.calls == 0 && r.response.finish == Stop)
      && (e == Some(ToolBudget) <==>
            Answered(p, r) && !Truncated(r) && RetryMet(h, r) && !Final(r) && h.used + r.response.calls > ToolLimit(limits))
      && (e == Some(Guarded) <==> tools && r.cancelledAfter.None? && r.verdict == StopTheRun)
      && (e == Some(TurnCeiling) <==> tools && r.cancelledAfter.None? && r.verdict == GoOn && |h.requests| + 1 >= limits.maxTurns)
      && (e == None <==>
            || (Begun(r) && r.measuring in {ModelGone, OtherFailure} && repairable)
            || (Measured(r) && GuardOf(r) + OutputFloor(p) > p.nCtx && CompactionOf(env, h, r).changed)
            || (Answered(p, r) && Truncated(r) && h.retryTool == "" && r.response.firstTool != "")
            || (tools && r.cancelledAfter.None? && r.verdict == GoOn && |h.requests| + 1 < limits.maxTurns))
  {
  }

  /** The calls of the answered, untruncated rounds among the first `k`. */
  function CallsIn(p: Profile, world: nat -> Round, k: nat): nat {
    if k == 0 then 0
    else CallsIn(p, world, k - 1) + if Answered(p, world(k - 1)) && !Truncated(world(k - 1)) then world(k - 1).response.calls else 0
  }

  /** The requests of the rounds among the first `k` that sent one, in order. */
  function RequestsIn(p: Profile, world: nat -> Round, k: nat): seq<Request> {
    if k == 0 then []
    else RequestsIn(p, world, k - 1) + if Sent(p, world(k - 1)) then [RequestOf(p, world(k - 1))] else []
  }

  /** The truncated rounds among the first `k`. */
  function TruncationsIn(p: Profile, world: nat -> Round, k: nat): nat {
    if k == 0 then 0
    else TruncationsIn(p, world, k - 1) + if Answered(p, world(k - 1)) && Truncated(world(k - 1)) then 1 else 0
  }

  /** What a round that goes on changes: the counts, the call being retried, and the message list, which is repaired, compacted or that of the finished turn. */
  lemma RoundMeans(env: Env, limits: Limits, p: Profile, h: Progress, r: Round)
    requires Ending(env, limits, p, h, r) == None
    ensures var next := Advance(env, p, h, r);
      && next.used == h.used + (if Answered(p, r) && !Truncated(r) then r.response.calls else 0)
      && next.requests == h.requests + (if Sent(p, r) then [RequestOf(p, r)] else [])
      && next.retried == h.retried + (if Answered(p, r) && Truncated(r) then 1 else 0)
      && next.retryTool == (if !Answered(p, r) then h.retryTool else if Truncated(r) then r.response.firstTool else "")
      && (next.repaired <==> h.repaired || r.measuring != NoFailure)
      && next.messages == (
            if !Measured(r) then Repair(env, h.messages).messages
            else if !Sent(p, r) then Fit.Compact(env, h.messages, r.usedEst, r.target, r.overflow, r.summaries).messages
            else if Truncated(r) then h.messages else r.after)
  {
    hide RequestOf, Repair, GuardOf, Fit.Compact;
  }

  /** The counts of a run that went on are sums over its rounds. */
  lemma {:induction false} CountsMean(env: Env, limits: Limits, p: Profile, start: seq<Message>, world: nat -> Round, k: nat)
    requires WentOn(env, limits, p, start, world, k)
    ensures var h := ProgressAt(env, p, start, world, k);
      && h.used == CallsIn(p, world, k) && h.requests == RequestsIn(p, world, k) && h.retried == TruncationsIn(p, world, k)
  {
    hide Ending, Advance, Answered, Sent, Truncated, RequestOf;
    if k > 0 {
      CountsMean(env, limits, p, start, world, k - 1);
      assert EndingAt(env, limits, p, start, world, k - 1) == None;
      RoundMeans(env, limits, p, ProgressAt(env, p, start, world, k - 1), world(k - 1));
    }
  }

  lemma RequestsStep(p: Profile, world: nat -> Round, k: nat)
    ensures RequestsIn(p, world, k + 1) == RequestsIn(p, world, k) + if Sent(p, world(k)) then [RequestOf(p, world(k))] else []
  {
  }

  /** What a run did: the rounds it used, the requests it sent, the calls it executed and the truncated calls it retried. */
  datatype Trace = Trace(rounds: nat, requests: seq<Request>, executed: nat, retried: nat)

  /**
    The run loop.  It stops in the first round that gives a reason, with that reason.  It has sent exactly
    the requests of the rounds that send one, and executed exactly the calls of the answered, untruncated
    rounds before the last, and of the last one what was executed before it stopped.  For fixed limits it
    sends at most one request per turn of the limit, plus one when a truncated tool call was retried in the
    last turn; it executes at most the allowed tool calls; and every request fits the context window.  That
    the method has a decreasing measure is the proof that the loop ends, including its compact-and-retry.
   */
  method Run(env: Env, limits: Limits, p: Profile, start: seq<Message>, world: nat -> Round) returns (reason: Reason, turns: nat, trace: Trace)
    requires Fit.Counted(env, start)
    requires forall i: nat :: RoundOk(env, world(i))
    ensures trace.rounds > 0 && WentOn(env, limits, p, start, world, trace.rounds - 1)
    ensures EndingAt(env, limits, p, start, world, trace.rounds - 1) == Some(reason)
    ensures turns == |trace.requests| && trace.requests == RequestsIn(p, world, trace.rounds)
    ensures var h, last := ProgressAt(env, p, start, world, trace.rounds - 1), world(trace.rounds - 1);
      trace.executed == CallsIn(p, world, trace.rounds - 1) + if RunsTools(limits, p, h, last) then Completed(last) else 0
    ensures trace.retried == TruncationsIn(p, world, trace.rounds - 1)
    ensures |trace.requests| <= TurnLimit(limits) + 1
    ensures |trace.requests| > TurnLimit(limits) ==> trace.retried > 0
    ensures trace.executed <= ToolLimit(limits)
    ensures forall i :: 0 <= i < |trace.requests| ==> Fits(p, trace.requests[i])
  {
    hide Ending, Advance, RunsTools, InBounds, CallsIn, RequestsIn, TruncationsIn, RequestOf, Sent, Completed;
    assert InBounds(env, limits, p, Progress(start, [], 0, "", false, 0)) by { StartInBounds(env, limits, p, start); }
    var h := Progress(start, [], 0, "", false, 0);
    var pass := 0;
    while true
      invariant h == ProgressAt(env, p, start, world, pass) && WentOn(env, limits, p, start, world, pass)
      invariant InBounds(env, limits, p, h)
      decreases TurnLimit(limits) + 1 - |h.requests|, !h.repaired, Fit.OpenResults(env, h.messages), |h.messages|, TokenSum(h.messages)
    {
      var round := world(pass);
      assert RoundOk(env, round);
      var stop, sent, executed, next := Pass(env, limits, p, h, round);
      assert stop == EndingAt(env, limits, p, start, world, pass);
      if stop.Some? {
        CountsMean(env, limits, p, start, world, pass);
        RequestsStep(p, world, pass);
        EndInBounds(env, limits, p, h, round, sent, executed);
        reason := stop.value;
        trace := Trace(pass + 1, if sent then h.requests + [RequestOf(p, round)] else h.requests, h.used + executed, h.retried);
        turns := |trace.requests|;
        assert if sent then trace.requests == h.requests + [RequestOf(p, round)] else trace.requests == h.requests + [];
        return;
      }
      AdvanceInBounds(env, limits, p, h, round);
      BoundedBelow(env, limits, p, h);
      BoundedBelow(env, limits, p, next);
      h, pass := next, pass + 1;
    }
  }

  /** The limits as the loop keeps them between passes. */
  ghost predicate InBounds(env: Env, limits: Limits, p: Profile, h: Progress) {
    && (|h.requests| < TurnLimit(limits) || (|h.requests| == TurnLimit(limits) && h.retryTool != ""))
    && (h.retryTool != "" ==> h.retried > 0)
    && h.used <= ToolLimit(limits)
    && (forall i :: 0 <= i < |h.requests| ==> Fits(p, h.requests[i]))
    && Fit.Counted(env, h.messages) && TokenSum(h.messages) >= 0
  }

  lemma StartInBounds(env: Env, limits: Limits, p: Profile, start: seq<Message>)
    requires Fit.Counted(env, start)
    ensures InBounds(env, limits, p, Progress(start, [], 0, "", false, 0))
  {
    Fit.TokensNonNegative(env, start);
  }

  lemma BoundedBelow(env: Env, limits: Limits, p: Profile, h: Progress)
    requires InBounds(env, limits, p, h)
    ensures |h.requests| <= TurnLimit(limits) && TokenSum(h.messages) >= 0
  {
  }

  ghost predicate Smaller(env: Env, limits: Limits, a: Progress, b: Progress) {
    || |a.requests| > |b.requests|
    || (|a.requests| == |b.requests| && a.repaired && !b.repaired)
    || (|a.requests| == |b.requests| && a.repaired == b.repaired && Fit.Less(Fit.MeasureOf(env, a.messages), Fit.MeasureOf(env, b.messages)))
  }

  /** A pass that goes on keeps the limits and makes the measure smaller. */
  lemma AdvanceInBounds(env: Env, limits: Limits, p: Profile, h: Progress, r: Round)
    requires InBounds(env, limits, p, h) && RoundOk(env, r) && Ending(env, limits, p, h, r) == None
    ensures InBounds(env, limits, p, Advance(env, p, h, r)) && Smaller(env, limits, Advance(env, p, h, r), h)
  {
    hide Repair, Fit.Compact, Fit.Counted, TokenSum, Fit.OpenResults, RequestTokenLimit, GuardedPromptTokens, OutputFloor, Fits;
    var next := Advance(env, p, h, r);
    if r.measuring != NoFailure {
      RepairKeepsCounts(env, h.messages);
    } else if !LeavesFloor(p, r) {
      Fit.CompactDecreases(env, h.messages, r.usedEst, r.target, r.overflow, r.summaries);
    } else {
      FloorFits(p, r);
    }
    Fit.TokensNonNegative(env, next.messages);
  }

  lemma FloorFits(p: Profile, r: Round)
    requires LeavesFloor(p, r)
    ensures Fits(p, RequestOf(p, r))
  {
    SendTestIsExact(p, GuardOf(r));
  }

  lemma EndInBounds(env: Env, limits: Limits, p: Profile, h: Progress, r: Round, sent: bool, executed: nat)
    requires InBounds(env, limits, p, h) && sent == Sent(p, r)
    requires executed == if RunsTools(limits, p, h, r) then Completed(r) else 0
    ensures sent ==> Fits(p, RequestOf(p, r))
    ensures h.used + executed <= ToolLimit(limits)
    ensures |h.requests| <= TurnLimit(limits) && forall i :: 0 <= i < |h.requests| ==> Fits(p, h.requests[i])
    ensures |h.requests| + (if sent then 1 else 0) > TurnLimit(limits) ==> h.retried > 0
  {
    if sent {
      FloorFits(p, r);
    }
  }

  /** One pass of the loop. */
  method Pass(env: Env, limits: Limits, p: Profile, h: Progress, round: Round)
    returns (stop: Option<Reason>, sent: bool, executed: nat, next: Progress)
    ensures stop == Ending(env, limits, p, h, round)
    ensures sent == Sent(p, round)
    ensures executed == if RunsTools(limits, p, h, round) then Completed(round) else 0
    ensures stop.None? ==> next == Advance(env, p, h, round)
  {
    hide Repair, Fit.Compact;
    stop, sent, executed, next := None, false, 0, h;
    if round.cancelled {
      return Some(Cancelled), false, 0, h;
    }
    if round.mailboxStop {
      return Some(MailboxStop), false, 0, h;
    }
    if !round.hasProfile {
      return Some(NoProfile), false, 0, h;
    }
    if round.measuring != NoFailure {
      if round.measuring == CancelledThere {
        return Some(Cancelled), false, 0, h;
      }
      if !h.repaired {
        var repair := Repair(env, h.messages);
        if repair.changed {
          next := h.(messages := repair.messages, repaired := true);
          return;
        }
      }
      return Some(if round.measuring == ModelGone then ModelUnreachable else ModelError), false, 0, h;
    }
    var guard := GuardedPromptTokens(round.usedEst, round.estimated);
    if guard + OutputFloor(p) > p.nCtx {
      var compacted := Fit.Compact(env, h.messages, round.usedEst, round.target, round.overflow, round.summaries);
      if compacted.changed {
        next := h.(messages := compacted.messages);
        return;
      }
      return Some(ContextCeiling), false, 0, h;
    }
    sent := true;
    next := h.(requests := h.requests + [Request(guard, RequestTokenLimit(p, guard))]);
    if round.calling != NoFailure {
      stop := Some(if round.calling == CancelledThere then Cancelled else if round.calling == ModelGone then ModelUnreachable else ModelError);
      return;
    }
    var response := round.response;
    if response.finish == Length && response.calls > 0 {
      if h.retryTool != "" || response.firstTool == "" {
        stop := Some(LengthStop);
        return;
      }
      next := next.(retryTool := response.firstTool, retried := h.retried + 1);
      return;
    }
    if h.retryTool != "" {
      if response.calls == 0 || response.firstTool != h.retryTool {
        stop := Some(LengthStop);
        return;
      }
      next := next.(retryTool := "");
    }
    if response.calls == 0 && response.finish != ToolCalls {
      stop := Some(if response.finish == Length then LengthStop else Done);
      return;
    }
    if h.used + response.calls > ToolLimit(limits) {
      stop := Some(ToolBudget);
      return;
    }
    next := next.(used := h.used + response.calls);
    executed := if round.cancelledAfter.Some? then Min(round.cancelledAfter.value, response.calls) else response.calls;
    if round.cancelledAfter.Some? || round.verdict == CancelledWaiting {
      stop := Some(Cancelled);
    } else if round.verdict == StopTheRun {
      stop := Some(Guarded);
    } else if |h.requests| + 1 >= limits.maxTurns {
      stop := Some(TurnCeiling);
    } else {
      next := next.(messages := round.after);
    }
  }

  /** Repair keeps messages as they are or clears their calls, so counts stay a function of content. */
  lemma RepairKeepsCounts(env: Env, messages: seq<Message>)
    requires Fit.Counted(env, messages)
    ensures Fit.Counted(env, Repair(env, messages).messages)
  {
    var at := BadIndex(env, messages);
    if at.Some? {
      KeptKeepsCounts(env, messages, messages[at.value], at.value);
    }
  }

  lemma {:induction false} KeptKeepsCounts(env: Env, messages: seq<Message>, bad: Message, at: int)
    requires Fit.Counted(env, messages)
    ensures Fit.Counted(env, Kept(env, messages, bad, at))
  {
    hide Dropped;
    if messages != [] {
      KeptKeepsCounts(env, messages[1..], bad, at - 1);
    }
  }
}
