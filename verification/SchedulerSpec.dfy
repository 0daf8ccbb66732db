/**
  The run scheduler as a state machine.  Every function below is one section that the
  scheduler executes while it holds its mutex; a run of the scheduler is any sequence of
  such sections.  Run ids are the integers behind "r1", "r2", ...; an active run's Go object
  is identified with its run id, which is unique because ids are never reused.
 */
module SchedulerSpec {
  import opened Prelude

  type SessionId = string

  datatype Message = Message(id: nat, text: string)

  /** A queued run.  `body` is the user message still to be appended when the run starts. */
  datatype Entry = Entry(session: SessionId, run: nat, body: Option<Message>)

  datatype Active = Active(run: nat, stopReason: string)

  datatype Status = Idle | Running | Queued | Paused | Stopping | Held

  datatype Config = Config(maxConcurrent: int, queueDepth: int)

  /** A user message and whether it had to wait in the pending list. */
  datatype Line = Line(message: Message, waited: bool)

  /**
    The scheduler's fields, the run status of each session, and a journal of what was published:
    `accepted` are the messages taken by Submit, `transcript` the user messages appended to each
    session, `discarded` the ids whose queued body Stop dropped, `started` and `stopped` the run
    ids of the run.started and run.stopped events.
   */
  datatype State = State(
    active: map<SessionId, Active>,
    queue: seq<Entry>,
    pending: map<SessionId, seq<Message>>,
    held: set<SessionId>,
    unreachable: set<SessionId>,
    ids: nat,
    status: map<SessionId, Status>,
    nextMessage: nat,
    accepted: map<SessionId, seq<Line>>,
    transcript: map<SessionId, seq<Line>>,
    discarded: map<SessionId, seq<Message>>,
    started: seq<int>,
    stopped: seq<int>
  )

  const Initial := State(map[], [], map[], {}, {}, 0, map[], 0, map[], map[], map[], [], [])

  function StatusOf(st: State, s: SessionId): Status {
    if s in st.status then st.status[s] else Idle
  }

  predicate IsRunning(st: State, s: SessionId) {
    StatusOf(st, s) != Idle
  }

  /** One-based position of the first pending message with this text, or 0. */
  function IdenticalPosition(waiting: seq<Message>, text: string): nat {
    if waiting == [] then 0
    else if waiting[0].text == text then 1
    else
      var rest := IdenticalPosition(waiting[1..], text);
      if rest == 0 then 0 else rest + 1
  }

  function SetStatus(st: State, s: SessionId, value: Status): State {
    st.(status := st.status[s := value])
  }

  function Start(st: State, e: Entry): State {
    st.(active := st.active[e.session := Active(e.run, "")],
        status := st.status[e.session := Running],
        transcript := if e.body.Some? then Push(st.transcript, e.session, Line(e.body.value, true)) else st.transcript,
        started := st.started + [e.run])
  }

  function Enqueue(st: State, e: Entry): State {
    st.(queue := st.queue + [e], status := st.status[e.session := Queued])
  }

  /** Start the entry if a slot is free, otherwise put it at the end of the queue. */
  function Dispatch(cfg: Config, st: State, e: Entry): State {
    if |st.active| < cfg.maxConcurrent then Start(st, e) else Enqueue(st, e)
  }

  /** Start queued runs from the front while slots are free. */
  function Drain(cfg: Config, st: State): State
    decreases |st.queue|
  {
    if st.queue != [] && |st.active| < cfg.maxConcurrent then
      Drain(cfg, Start(st.(queue := st.queue[1..]), st.queue[0]))
    else st
  }

  /** Make a message of the text and put it at the end of the session's pending list. */
  function Wait(st: State, s: SessionId, text: string): State {
    var m := Message(st.nextMessage, text);
    st.(nextMessage := st.nextMessage + 1,
        accepted := Push(st.accepted, s, Line(m, true)),
        pending := Push(st.pending, s, m))
  }

  /** Take the first pending message and give it the next run id. */
  function Take(st: State, s: SessionId): (r: (State, Entry))
    requires At(st.pending, s) != []
  {
    var waiting := At(st.pending, s);
    (st.(pending := st.pending[s := waiting[1..]], ids := st.ids + 1),
     Entry(s, st.ids + 1, Some(waiting[0])))
  }

  function AppendDirect(st: State, s: SessionId, text: string): State {
    var line := Line(Message(st.nextMessage, text), false);
    st.(nextMessage := st.nextMessage + 1,
        accepted := Push(st.accepted, s, line),
        transcript := Push(st.transcript, s, line),
        ids := st.ids + 1)
  }

  datatype Outcome =
    | Rejected
    | Duplicate(position: nat)
    | Waiting(position: nat)
    | StartedRun(run: nat)
    | QueuedRun(run: nat, place: nat)

  /** The model of the session is unreachable: the message waits, and an identical one is absorbed. */
  function SubmitUnreachable(st: State, s: SessionId, text: string, prepared: bool): (State, Outcome) {
    var same := IdenticalPosition(At(st.pending, s), text);
    if same > 0 then (st, Duplicate(same))
    else if !prepared then (st, Rejected)
    else
      var waiting := Wait(st, s, text);
      (SetStatus(waiting, s, Held), Waiting(|At(waiting.pending, s)|))
  }

  /** A manual hold is lifted: the message joins the pending list and the oldest pending one goes. */
  function SubmitHeld(cfg: Config, st: State, s: SessionId, text: string, prepared: bool): (State, Outcome) {
    if !prepared then (st, Rejected)
    else
      var waiting := Wait(st, s, text).(held := st.held - {s});
      var (taken, e) := Take(waiting, s);
      (Dispatch(cfg, taken, e), Waiting(|At(waiting.pending, s)|))
  }

  /** The session is busy: the message waits unless it is a duplicate or the list is full. */
  function SubmitBusy(cfg: Config, st: State, s: SessionId, text: string, prepared: bool): (State, Outcome) {
    var same := IdenticalPosition(At(st.pending, s), text);
    if same > 0 then (st, Duplicate(same))
    else if cfg.queueDepth > 0 && |At(st.pending, s)| >= cfg.queueDepth then (st, Rejected)
    else if !prepared then (st, Rejected)
    else
      var waiting := Wait(st, s, text);
      (waiting, Waiting(|At(waiting.pending, s)|))
  }

  /** The session is idle: the message enters the transcript at once and a run is dispatched for it. */
  function SubmitDirect(cfg: Config, st: State, s: SessionId, text: string, prepared: bool): (State, Outcome) {
    if !prepared then (st, Rejected)
    else
      var next := AppendDirect(st, s, text);
      (Dispatch(cfg, next, Entry(s, next.ids, None)),
       if |st.active| < cfg.maxConcurrent then StartedRun(next.ids) else QueuedRun(next.ids, |st.queue| + 1))
  }

  /**
    `open` is whether the session is registered and not closed, `prepared` whether the
    runner could turn the text into a message.
   */
  function Submit(cfg: Config, st: State, s: SessionId, text: string, open: bool, prepared: bool): (State, Outcome) {
    if !open then (st, Rejected)
    else if s in st.unreachable then SubmitUnreachable(st, s, text, prepared)
    else if s in st.held then SubmitHeld(cfg, st, s, text, prepared)
    else if s in st.active || IsRunning(st, s) then SubmitBusy(cfg, st, s, text, prepared)
    else SubmitDirect(cfg, st, s, text, prepared)
  }

  predicate QueueHeld(st: State, s: SessionId) {
    (s in st.held || s in st.unreachable) && At(st.pending, s) != []
  }

  /** Publish run.stopped for a run of `s` that just left `active`, and fill the free slots. */
  function Settle(cfg: Config, st: State, s: SessionId, run: nat): State {
    var stopped := SetStatus(st, s, if QueueHeld(st, s) then Held else Idle).(stopped := st.stopped + [run]);
    Drain(cfg, stopped)
  }

  /** The hand-over at the end of a run: the next pending message of the session joins the queue. */
  function HandOver(st: State, s: SessionId): State {
    if At(st.pending, s) != [] && s !in st.held && s !in st.unreachable then
      var (taken, e) := Take(st, s);
      Enqueue(taken, e)
    else st
  }

  /** The reason a run reports in the end: the one Stop recorded, if any. */
  function FinalReason(a: Active, reason: string): string {
    if a.stopReason != "" then a.stopReason else reason
  }

  predicate Owns(st: State, s: SessionId, run: nat) {
    s in st.active && st.active[s].run == run
  }

  /** A run's goroutine reports completion. */
  function Finish(cfg: Config, st: State, s: SessionId, run: nat, reason: string): State {
    if !Owns(st, s, run) then st
    else
      var freed := st.(
        active := st.active - {s},
        unreachable := if FinalReason(st.active[s], reason) == "model_unreachable" then st.unreachable + {s} else st.unreachable);
      Settle(cfg, HandOver(freed, s), s, run)
  }

  /** Stop gave up waiting for the run's goroutine. */
  function ForceFinish(cfg: Config, st: State, s: SessionId, run: nat): State {
    if !Owns(st, s, run) then st
    else Settle(cfg, st.(active := st.active - {s}), s, run)
  }

  predicate Targets(target: Option<SessionId>, s: SessionId) {
    target.None? || target.value == s
  }

  /** First loop of Stop: mark one active run as stopping. */
  function StopActive(st: State, s: SessionId, reason: string): State
    requires s in st.active
  {
    SetStatus(
      st.(active := st.active[s := st.active[s].(stopReason := reason)],
          held := if At(st.pending, s) != [] then st.held + {s} else st.held),
      s, Stopping)
  }

  function StopEach(st: State, order: seq<SessionId>, target: Option<SessionId>, reason: SessionId -> string): State
    decreases |order|
  {
    if order == [] then st
    else
      var s := order[0];
      StopEach(if Targets(target, s) && s in st.active then StopActive(st, s, reason(s)) else st, order[1..], target, reason)
  }

  /** Second loop of Stop, one entry: drop it with its body and publish run.stopped for it. */
  function StopQueued(st: State, e: Entry): State {
    var held := if At(st.pending, e.session) != [] then st.held + {e.session} else st.held;
    SetStatus(
      st.(held := held,
          discarded := if e.body.Some? then Push(st.discarded, e.session, e.body.value) else st.discarded,
          stopped := st.stopped + [e.run]),
      e.session, if e.session in held then Held else Idle)
  }

  /** Second loop of Stop over the entries still to be looked at; kept entries collect in `st.queue`. */
  function StopQueue(st: State, rest: seq<Entry>, target: Option<SessionId>): State
    decreases |rest|
  {
    if rest == [] then st
    else if Targets(target, rest[0].session) then StopQueue(StopQueued(st, rest[0]), rest[1..], target)
    else StopQueue(st.(queue := st.queue + [rest[0]]), rest[1..], target)
  }

  /** The lock-held part of Stop.  `order` is the order in which Go walks the active map. */
  function Stop(st: State, order: seq<SessionId>, target: Option<SessionId>, reason: SessionId -> string): State {
    var marked := StopEach(st, order, target, reason);
    StopQueue(marked.(queue := []), marked.queue, target)
  }

  /** What ReleaseModel does for an unreachable session that uses the released model. */
  function ReleaseOne(cfg: Config, st: State, s: SessionId): State {
    var reachable := st.(unreachable := st.unreachable - {s});
    if At(st.pending, s) == [] || s in st.held || s in st.active then reachable
    else
      var (taken, e) := Take(reachable, s);
      Dispatch(cfg, taken, e)
  }

  /** `order` is the order in which Go walks the unreachable map, `onModel` the sessions of the model. */
  function Release(cfg: Config, st: State, order: seq<SessionId>, onModel: set<SessionId>): State
    decreases |order|
  {
    if order == [] then st
    else
      var s := order[0];
      Release(cfg, if s in st.unreachable && s in onModel then ReleaseOne(cfg, st, s) else st, order[1..], onModel)
  }

  function HoldModel(st: State, s: SessionId): State {
    st.(unreachable := st.unreachable + {s})
  }

  datatype Step =
    | DoSubmit(session: SessionId, text: string, open: bool, prepared: bool)
    | DoFinish(session: SessionId, run: nat, reason: string)
    | DoForceFinish(session: SessionId, run: nat)
    | DoStop(order: seq<SessionId>, target: Option<SessionId>, abortReason: SessionId -> string)
    | DoRelease(order: seq<SessionId>, onModel: set<SessionId>)
    | DoHoldModel(session: SessionId)
    | DoSetStatus(session: SessionId, value: Status)  // the gate, the runner and the registry write it too

  function Next(cfg: Config, st: State, step: Step): State {
    match step
    case DoSubmit(s, text, open, prepared) => Submit(cfg, st, s, text, open, prepared).0
    case DoFinish(s, run, reason) => Finish(cfg, st, s, run, reason)
    case DoForceFinish(s, run) => ForceFinish(cfg, st, s, run)
    case DoStop(order, target, reason) => Stop(st, order, target, reason)
    case DoRelease(order, onModel) => Release(cfg, st, order, onModel)
    case DoHoldModel(s) => HoldModel(st, s)
    case DoSetStatus(s, value) => SetStatus(st, s, value)
  }

  /** The state after a whole run of the scheduler. */
  function After(cfg: Config, steps: seq<Step>): State {
    if steps == [] then Initial
    else Next(cfg, After(cfg, steps[..|steps| - 1]), steps[|steps| - 1])
  }
}
