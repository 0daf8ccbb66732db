/**
  The approval gate: a decide-once protocol between an operator (or the mailbox) who decides, a run
  that is cancelled, and a newer wait of the same session that supersedes the older one.  The steps
  are the mutex-held sections plus the publications and channel operations between them, so every
  interleaving of the goroutines is a sequence of steps.
 */
module Gate {
  import opened Prelude

  datatype Decision =
    | Approve | Once | RunScope | SessionScope | OperatorMode | Deny | Continue | StopRun
    | Superseded | Dismissed | Unknown(text: string)

  datatype Kind = NoScopes | ShellScopes | FileScopes | PolicyScopes | Cycle

  datatype Key = Key(session: string, call: string)

  datatype Signal = Signal(decision: Decision, logged: bool)

  /** What is still owed to a superseded wait by the goroutine that superseded it. */
  datatype Notice = Nothing | OwesEvent | OwesSignal

  /** Where the waiting goroutine is. */
  datatype Phase = Waiting | Received(signal: Signal) | Cancelled | Returned(decision: Decision) | Cleaned(decision: Decision)

  /**
    One wait.  `inbox` is the channel (capacity 1), `sends` counts the sends ever made on it, and
    `published` lists the approval.decided events published for the wait.
   */
  datatype Wait = Wait(key: Key, kind: Kind, decided: bool, inbox: seq<Signal>, sends: nat, notice: Notice, phase: Phase, published: seq<Decision>)

  /** Waits are identified by their index in `waits`, as Go identifies them by pointer. */
  datatype State = State(waits: seq<Wait>, waiting: map<Key, nat>, pendingBySession: map<string, Key>)

  const Initial := State([], map[], map[])

  predicate Known(st: State, w: nat) {
    w < |st.waits|
  }

  function Put(st: State, w: nat, wait: Wait): State
    requires Known(st, w)
  {
    st.(waits := st.waits[w := wait])
  }

  /** The lock-held part of beginWait: supersede the session's registered wait, register the new one. */
  function BeginWait(st: State, key: Key, kind: Kind): State {
    var newest := Wait(key, kind, false, [], 0, Nothing, Waiting, []);
    var cleared :=
      if key.session in st.pendingBySession && st.pendingBySession[key.session] != key then
        var priorKey := st.pendingBySession[key.session];
        var dropped := st.(waiting := st.waiting - {priorKey});
        if priorKey in st.waiting && Known(st, st.waiting[priorKey]) && !st.waits[st.waiting[priorKey]].decided then
          Put(dropped, st.waiting[priorKey], st.waits[st.waiting[priorKey]].(decided := true, notice := OwesEvent))
        else dropped
      else st;
    State(cleared.waits + [newest], cleared.waiting[key := |cleared.waits|], cleared.pendingBySession[key.session := key])
  }

  /** After beginWait released the lock: publish the superseded decision of the prior wait ... */
  function PublishSuperseded(st: State, w: nat): State {
    if Known(st, w) && st.waits[w].notice == OwesEvent then
      Put(st, w, st.waits[w].(notice := OwesSignal, published := st.waits[w].published + [Superseded]))
    else st
  }

  /** ... and then send it to the waiting goroutine. */
  function SendSuperseded(st: State, w: nat): State {
    if Known(st, w) && st.waits[w].notice == OwesSignal then
      Put(st, w, Send(st.waits[w], Signal(Superseded, true)).(notice := Nothing))
    else st
  }

  function Send(wait: Wait, signal: Signal): Wait {
    wait.(inbox := wait.inbox + [signal], sends := wait.sends + 1)
  }

  datatype Outcome = Accepted | Refused

  predicate ValidDecision(d: Decision) {
    d in {Approve, Once, RunScope, SessionScope, OperatorMode, Deny, Continue, StopRun}
  }

  /** The chain of tests in DecideWith, in its order. */
  predicate ScopeAllows(kind: Kind, d: Decision) {
    && ValidDecision(d)
    && !(d == RunScope && kind != ShellScopes && kind != FileScopes)
    && !(d == SessionScope && kind == NoScopes)
    && !(d == OperatorMode && kind != ShellScopes)
    && !((d == Continue || d == StopRun) && kind != Cycle)
    && !(kind == Cycle && d != Continue && d != StopRun)
  }

  function Decide(st: State, key: Key, d: Decision): (State, Outcome) {
    if key in st.waiting && Known(st, st.waiting[key]) then
      var w := st.waiting[key];
      if ScopeAllows(st.waits[w].kind, d) && !st.waits[w].decided then
        (Put(st, w, Send(st.waits[w].(decided := true), Signal(d, false))), Accepted)
      else (st, Refused)
    else (st, Refused)
  }

  /** The waiting goroutine sees its context cancelled and takes the lock. */
  function Cancel(st: State, w: nat): State {
    if Known(st, w) && st.waits[w].phase == Waiting && !st.waits[w].decided then
      Put(st, w, st.waits[w].(decided := true, phase := Cancelled))
    else st  // already decided: the goroutine goes on to receive
  }

  function PublishDismissed(st: State, w: nat): State {
    if Known(st, w) && st.waits[w].phase == Cancelled then
      Put(st, w, st.waits[w].(phase := Returned(Dismissed), published := st.waits[w].published + [Dismissed]))
    else st
  }

  /** The waiting goroutine takes a signal from its channel. */
  function Receive(st: State, w: nat): State {
    if Known(st, w) && st.waits[w].phase == Waiting && st.waits[w].inbox != [] then
      Put(st, w, st.waits[w].(phase := Received(st.waits[w].inbox[0]), inbox := st.waits[w].inbox[1..]))
    else st
  }

  /** It publishes the decision unless the sender already did, and returns it. */
  function Return(st: State, w: nat): State {
    if Known(st, w) && st.waits[w].phase.Received? then
      var signal := st.waits[w].phase.signal;
      Put(st, w, st.waits[w].(
        phase := Returned(signal.decision),
        published := if signal.logged then st.waits[w].published else st.waits[w].published + [signal.decision]))
    else st
  }

  /** The deferred cleanup of a wait that returned; it happens once. */
  function Cleanup(st: State, w: nat): State {
    if Known(st, w) && st.waits[w].phase.Returned? then
      var key := st.waits[w].key;
      Put(st, w, st.waits[w].(phase := Cleaned(st.waits[w].phase.decision))).(
        waiting := if key in st.waiting && st.waiting[key] == w then st.waiting - {key} else st.waiting,
        pendingBySession :=
          if key.session in st.pendingBySession && st.pendingBySession[key.session] == key
          then st.pendingBySession - {key.session} else st.pendingBySession)
    else st
  }

  datatype Step =
    | DoBeginWait(key: Key, kind: Kind)
    | DoPublishSuperseded(wait: nat)
    | DoSendSuperseded(wait: nat)
    | DoDecide(key: Key, decision: Decision)  // an operator, or the mailbox tick of the wait itself
    | DoCancel(wait: nat)
    | DoPublishDismissed(wait: nat)
    | DoReceive(wait: nat)
    | DoReturn(wait: nat)
    | DoCleanup(wait: nat)

  function Next(st: State, step: Step): State {
    match step
    case DoBeginWait(key, kind) => BeginWait(st, key, kind)
    case DoPublishSuperseded(w) => PublishSuperseded(st, w)
    case DoSendSuperseded(w) => SendSuperseded(st, w)
    case DoDecide(key, d) => Decide(st, key, d).0
    case DoCancel(w) => Cancel(st, w)
    case DoPublishDismissed(w) => PublishDismissed(st, w)
    case DoReceive(w) => Receive(st, w)
    case DoReturn(w) => Return(st, w)
    case DoCleanup(w) => Cleanup(st, w)
  }

  function After(steps: seq<Step>): State {
    if steps == [] then Initial
    else Next(After(steps[..|steps| - 1]), steps[|steps| - 1])
  }

  // ----- which decisions a wait can be given ------------------------------------------------

  /** The decisions each kind of approval offers. */
  function Offered(kind: Kind): set<Decision> {
    match kind
    case NoScopes => {Approve, Once, Deny}
    case PolicyScopes => {Approve, Once, SessionScope, Deny}
    case FileScopes => {Approve, Once, RunScope, SessionScope, Deny}
    case ShellScopes => {Approve, Once, RunScope, SessionScope, OperatorMode, Deny}
    case Cycle => {Continue, StopRun}
  }

  /** The tests of DecideWith accept exactly the decisions that the kind offers. */
  lemma TestsMatchOffer(kind: Kind, d: Decision)
    ensures ScopeAllows(kind, d) <==> d in Offered(kind)
  {
  }

  // ----- invariant ------------------------------------------------------------------------------

  /** The life of one wait: who owes what, and what was sent and published so far. */
  ghost predicate WaitOk(w: Wait) {
    && |w.inbox| <= w.sends <= 1
    && (!w.decided ==> w.sends == 0 && w.notice == Nothing && w.phase == Waiting && w.published == [])
    && (w.notice != Nothing ==> w.sends == 0 && w.phase == Waiting && w.inbox == [])
    && (w.notice == OwesEvent ==> w.published == [])
    && (w.notice == OwesSignal ==> w.published == [Superseded])
    && (w.inbox != [] ==> w.phase == Waiting && SignalOk(w, w.inbox[0]))
    && (match w.phase
        case Waiting => w.decided ==> w.notice != Nothing || w.inbox != []
        case Received(signal) => SignalOk(w, signal)
        case Cancelled => w.sends == 0 && w.published == []
        case Returned(d) => DecisionOk(w, d)
        case Cleaned(d) => DecisionOk(w, d))
  }

  /** What was returned is what was published, once, and fits the wait. */
  ghost predicate DecisionOk(w: Wait, d: Decision) {
    w.published == [d] && (d in {Superseded, Dismissed} || d in Offered(w.kind))
  }

  /** A signal on its way: a superseded one is already published, any other one is not. */
  ghost predicate SignalOk(w: Wait, signal: Signal) {
    if signal.logged then signal.decision == Superseded && w.published == [Superseded]
    else signal.decision in Offered(w.kind) && w.published == []
  }

  ghost predicate WaitsOk(st: State) {
    forall i :: 0 <= i < |st.waits| ==> WaitOk(st.waits[i])
  }

  /** What is true of the registries in every run: a registered wait carries its key and was not cleaned up, and a session's pending key is its own. */
  ghost predicate EntriesOk(st: State) {
    && (forall k :: k in st.waiting ==> Known(st, st.waiting[k]) && st.waits[st.waiting[k]].key == k && !st.waits[st.waiting[k]].phase.Cleaned?)
    && (forall s :: s in st.pendingBySession ==> st.pendingBySession[s].session == s)
  }

  /** Every registered key is the pending key of its session. */
  ghost predicate InStep(st: State) {
    forall k :: k in st.waiting ==> k.session in st.pendingBySession && st.pendingBySession[k.session] == k
  }

  /** A session has at most one registered wait. */
  ghost predicate OneEach(st: State) {
    forall a, b :: a in st.waiting && b in st.waiting && a.session == b.session ==> a == b
  }

  lemma BeginWaitsOk(st: State, key: Key, kind: Kind)
    requires WaitsOk(st)
    ensures WaitsOk(BeginWait(st, key, kind))
  {
  }

  lemma DecideWaitsOk(st: State, key: Key, d: Decision)
    requires WaitsOk(st)
    ensures WaitsOk(Decide(st, key, d).0)
  {
    if key in st.waiting && Known(st, st.waiting[key]) {
      TestsMatchOffer(st.waits[st.waiting[key]].kind, d);
    }
  }

  lemma NextWaitsOk(st: State, step: Step)
    requires WaitsOk(st)
    ensures WaitsOk(Next(st, step))
  {
    if step.DoBeginWait? {
      BeginWaitsOk(st, step.key, step.kind);
    } else if step.DoDecide? {
      DecideWaitsOk(st, step.key, step.decision);
    } else {
      hide BeginWait, Decide, Offered;
    }
  }

  /** A step that leaves the registries and the keys alone, and cleans nothing up. */
  lemma SameEntries(a: State, b: State)
    requires EntriesOk(a) && b.waiting == a.waiting && b.pendingBySession == a.pendingBySession && |b.waits| == |a.waits|
    requires forall i :: 0 <= i < |a.waits| ==> b.waits[i].key == a.waits[i].key && (b.waits[i].phase.Cleaned? ==> a.waits[i].phase.Cleaned?)
    ensures EntriesOk(b)
  {
  }

  lemma BeginEntriesOk(st: State, key: Key, kind: Kind)
    requires EntriesOk(st)
    ensures EntriesOk(BeginWait(st, key, kind))
  {
  }

  /** A cleanup takes exactly the wait itself out of the registry. */
  lemma CleanupEntriesOk(st: State, w: nat)
    requires EntriesOk(st)
    ensures EntriesOk(Cleanup(st, w))
    ensures Known(st, w) && st.waits[w].phase.Returned? ==>
      forall k :: k in Cleanup(st, w).waiting <==> k in st.waiting && st.waiting[k] != w
  {
  }

  lemma NextEntriesOk(st: State, step: Step)
    requires EntriesOk(st)
    ensures EntriesOk(Next(st, step))
  {
    hide EntriesOk;
    if step.DoBeginWait? {
      BeginEntriesOk(st, step.key, step.kind);
    } else if step.DoCleanup? {
      CleanupEntriesOk(st, step.wait);
    } else {
      SameEntries(st, Next(st, step));
    }
  }

  /** The wait whose cleanup this is was displaced by a newer wait under its own key, and that one is still registered. */
  ghost predicate Displaced(st: State, step: Step) {
    && step.DoCleanup? && Known(st, step.wait) && st.waits[step.wait].phase.Returned?
    && st.waits[step.wait].key in st.waiting && st.waiting[st.waits[step.wait].key] != step.wait
  }

  /** The registries stay in step if and only if the step is not the cleanup of a displaced wait. */
  lemma StaysInStepIff(st: State, step: Step)
    requires EntriesOk(st) && InStep(st)
    ensures InStep(Next(st, step)) <==> !Displaced(st, step)
  {
    var next := Next(st, step);
    if Displaced(st, step) {
      assert st.waits[step.wait].key in next.waiting;
    }
  }

  /** A new wait leaves one wait per session if and only if the session has no other registered wait but its pending one. */
  lemma BeginKeepsOneIff(st: State, key: Key, kind: Kind)
    requires EntriesOk(st) && OneEach(st)
    ensures OneEach(BeginWait(st, key, kind)) <==>
      forall k :: k in st.waiting && k.session == key.session && k != key ==>
        key.session in st.pendingBySession && st.pendingBySession[key.session] == k
  {
    var next := BeginWait(st, key, kind);
    assert forall k :: k in next.waiting <==>
      k == key || (k in st.waiting && !(key.session in st.pendingBySession && st.pendingBySession[key.session] == k));
    assert key in next.waiting;
  }

  lemma {:induction false} EveryRunEntriesOk(steps: seq<Step>)
    ensures EntriesOk(After(steps))
  {
    if steps != [] {
      EveryRunEntriesOk(steps[..|steps| - 1]);
      NextEntriesOk(After(steps[..|steps| - 1]), steps[|steps| - 1]);
    }
  }

  /** No wait is cleaned up after it was displaced. */
  ghost predicate NoneDisplaced(steps: seq<Step>) {
    forall i :: 0 <= i < |steps| ==> !Displaced(After(steps[..i]), steps[i])
  }

  /** The registries are in step at every point of a run if and only if no displaced wait is cleaned up in it. */
  lemma {:induction false} InStepThroughoutIff(steps: seq<Step>)
    ensures NoneDisplaced(steps) <==> forall i :: 0 <= i <= |steps| ==> InStep(After(steps[..i]))
  {
    if steps == [] {
      assert InStep(Initial);
    } else {
      hide Displaced, InStep, EntriesOk, Next;
      var n := |steps| - 1;
      var before := steps[..n];
      InStepThroughoutIff(before);
      assert forall i :: 0 <= i <= n ==> before[..i] == steps[..i];
      assert steps[..n + 1] == steps && before[..n] == before;
      assert NoneDisplaced(steps) <==> NoneDisplaced(before) && !Displaced(After(before), steps[n]) by {
        assert forall i :: 0 <= i < n ==> before[i] == steps[i];
      }
      EveryRunEntriesOk(before);
      if InStep(After(before)) {
        StaysInStepIff(After(before), steps[n]);
      }
    }
  }

  // ----- reusing a call id --------------------------------------------------------------------------

  /** A wait whose goroutine has not finished with it. */
  ghost predicate Unfinished(st: State, w: nat, key: Key) {
    Known(st, w) && st.waits[w].key == key && !st.waits[w].phase.Cleaned?
  }

  /** A call id is not used again before the wait that used it was cleaned up. */
  ghost predicate NoOverlap(steps: seq<Step>) {
    forall i, w: nat :: 0 <= i < |steps| && steps[i].DoBeginWait? ==> !Unfinished(After(steps[..i]), w, steps[i].key)
  }

  ghost predicate KeysApart(st: State) {
    forall v: nat, w: nat, key :: Unfinished(st, v, key) && Unfinished(st, w, key) ==> v == w
  }

  lemma NextKeysApart(st: State, step: Step)
    requires KeysApart(st)
    requires step.DoBeginWait? ==> forall w: nat :: !Unfinished(st, w, step.key)
    ensures KeysApart(Next(st, step))
  {
    var next := Next(st, step);
    forall w: nat, key | Unfinished(next, w, key)
      ensures Unfinished(st, w, key) || (step.DoBeginWait? && step.key == key && w == |st.waits|)
    {
    }
  }

  lemma NoOverlapFront(steps: seq<Step>)
    requires steps != [] && NoOverlap(steps)
    ensures NoOverlap(Front(steps))
    ensures Last(steps).DoBeginWait? ==> forall w: nat :: !Unfinished(After(Front(steps)), w, Last(steps).key)
  {
    hide Unfinished, After;
    assert forall i :: 0 <= i < |steps| - 1 ==> Front(steps)[..i] == steps[..i] && Front(steps)[i] == steps[i];
  }

  lemma NoneDisplacedSnoc(steps: seq<Step>)
    requires steps != [] && NoneDisplaced(Front(steps)) && !Displaced(After(Front(steps)), Last(steps))
    ensures NoneDisplaced(steps)
  {
    hide Displaced, After;
    forall i | 0 <= i < |steps| ensures !Displaced(After(steps[..i]), steps[i]) {
      if i < |steps| - 1 {
        assert Front(steps)[..i] == steps[..i] && !Displaced(After(Front(steps)[..i]), Front(steps)[i]);
      }
    }
  }

  lemma {:induction false} NoOverlapKeysApart(steps: seq<Step>)
    requires NoOverlap(steps)
    ensures KeysApart(After(steps)) && NoneDisplaced(steps)
  {
    hide Displaced, Next, KeysApart, Unfinished, NoOverlap, NoneDisplaced, EntriesOk;
    if steps == [] {
      NothingDisplaced();
    } else {
      var before := Front(steps);
      NoOverlapFront(steps);
      NoOverlapKeysApart(before);
      NextKeysApart(After(before), Last(steps));
      EveryRunEntriesOk(before);
      NotDisplaced(After(before), Last(steps));
      NoneDisplacedSnoc(steps);
    }
  }

  lemma NothingDisplaced()
    ensures KeysApart(Initial) && NoneDisplaced([])
  {
  }

  lemma NotDisplaced(st: State, step: Step)
    requires KeysApart(st) && EntriesOk(st)
    ensures !Displaced(st, step)
  {
    if Displaced(st, step) {
      var key := st.waits[step.wait].key;
      assert Unfinished(st, step.wait, key) && Unfinished(st, st.waiting[key], key);
    }
  }

  lemma {:induction false} EveryRunWaitsOk(steps: seq<Step>)
    ensures WaitsOk(After(steps))
  {
    if steps != [] {
      EveryRunWaitsOk(steps[..|steps| - 1]);
      NextWaitsOk(After(steps[..|steps| - 1]), steps[|steps| - 1]);
    }
  }

  // ----- theorems ---------------------------------------------------------------------------------

  /**
    In every interleaving in which no displaced wait is cleaned up, a session has at most one registered
    wait.  Call ids may be used again, as long as the earlier wait was cleaned up first.
   */
  lemma OneWaitPerSession(steps: seq<Step>, a: Key, b: Key)
    requires NoneDisplaced(steps) || NoOverlap(steps)
    requires a in After(steps).waiting && b in After(steps).waiting && a.session == b.session
    ensures a == b
  {
    if NoOverlap(steps) {
      NoOverlapKeysApart(steps);
    }
    InStepThroughoutIff(steps);
    assert steps[..|steps|] == steps;
  }

  /**
    In every interleaving, a wait gets at most one send, so its one-slot channel is empty at every
    send; a wait that returned published exactly one decision, the one it returns, and that decision
    is "superseded", "dismissed" or one that its kind of approval offers.
   */
  lemma DecideOnce(steps: seq<Step>, w: nat)
    requires w < |After(steps).waits|
    ensures var wait := After(steps).waits[w];
      && wait.sends <= 1
      && (wait.phase.Returned? || wait.phase.Cleaned? ==>
           && wait.published == [wait.phase.decision]
           && (wait.phase.decision in {Superseded, Dismissed} || wait.phase.decision in Offered(wait.kind)))
  {
    EveryRunWaitsOk(steps);
  }

  /** A step that sends finds the channel empty, so the send under the lock cannot block. */
  lemma SendNeverBlocks(steps: seq<Step>, step: Step, w: nat)
    requires w < |After(steps).waits|
    requires Next(After(steps), step).waits[w].sends > After(steps).waits[w].sends
    ensures After(steps).waits[w].inbox == []
  {
    EveryRunWaitsOk(steps);
    assert WaitOk(After(steps).waits[w]);
  }

  /**
    No wait is forgotten: once it is decided and has not returned, its signal is in the channel or
    received, its superseder still has to deliver it, or it is on its way out after a cancellation.
    So the receive after a lost race with a decision always completes.
   */
  lemma DecidedIsDelivered(steps: seq<Step>, w: nat)
    requires w < |After(steps).waits|
    requires var wait := After(steps).waits[w]; wait.decided && !wait.phase.Returned? && !wait.phase.Cleaned?
    ensures var wait := After(steps).waits[w];
      wait.inbox != [] || wait.notice != Nothing || wait.phase.Received? || wait.phase.Cancelled?
  {
    EveryRunWaitsOk(steps);
    assert WaitOk(After(steps).waits[w]);
  }

  /** A decision is accepted exactly when a wait is registered under the key, undecided, and offers it. */
  lemma DecideAccepts(steps: seq<Step>, key: Key, d: Decision)
    ensures var st := After(steps);
      Decide(st, key, d).1 == Accepted <==>
        exists w :: 0 <= w < |st.waits| && key in st.waiting && st.waiting[key] == w
                    && st.waits[w].key == key && !st.waits[w].decided && d in Offered(st.waits[w].kind)
  {
    EveryRunEntriesOk(steps);
    var st := After(steps);
    if key in st.waiting {
      TestsMatchOffer(st.waits[st.waiting[key]].kind, d);
    }
  }

  // ----- the decision that was given is the one that is returned ---------------------------------------

  /** This step gives `w` its decision: `w` is registered under the key, undecided, and offers it. */
  predicate Gives(st: State, step: Step, w: nat) {
    && step.DoDecide? && step.key in st.waiting && st.waiting[step.key] == w
    && Known(st, w) && !st.waits[w].decided && step.decision in Offered(st.waits[w].kind)
  }

  /** The decisions given to `w`, in order. */
  function GivenTo(steps: seq<Step>, w: nat): seq<Decision> {
    if steps == [] then []
    else
      var st, step := After(Front(steps)), Last(steps);
      GivenTo(Front(steps), w) + if Gives(st, step, w) then [step.decision] else []
  }

  /** What a wait holds on its way is what it was given. */
  ghost predicate HoldsGiven(wait: Wait, given: seq<Decision>) {
    && (!wait.decided || wait.notice != Nothing ==> given == [])
    && (wait.inbox != [] ==> given == if wait.inbox[0].logged then [] else [wait.inbox[0].decision])
    && (match wait.phase
        case Waiting => true
        case Received(signal) => given == if signal.logged then [] else [signal.decision]
        case Cancelled => given == []
        case Returned(d) => given == if d in {Superseded, Dismissed} then [] else [d]
        case Cleaned(d) => given == if d in {Superseded, Dismissed} then [] else [d])
  }

  lemma OfferedIsNotSpecial(kind: Kind)
    ensures Superseded !in Offered(kind) && Dismissed !in Offered(kind)
  {
  }

  lemma DecideHoldsGiven(st: State, key: Key, d: Decision, w: nat, given: seq<Decision>)
    requires Known(st, w) && WaitOk(st.waits[w]) && HoldsGiven(st.waits[w], given)
    ensures HoldsGiven(Decide(st, key, d).0.waits[w], given + if Gives(st, DoDecide(key, d), w) then [d] else [])
  {
    TestsMatchOffer(st.waits[w].kind, d);
    OfferedIsNotSpecial(st.waits[w].kind);
    hide Offered, ScopeAllows, SignalOk, DecisionOk;
    assert given + [] == given && (given == [] ==> given + [d] == [d]);
  }

  lemma BeginHoldsGiven(st: State, key: Key, kind: Kind, w: nat, given: seq<Decision>)
    requires Known(st, w) && WaitOk(st.waits[w]) && HoldsGiven(st.waits[w], given)
    ensures Known(BeginWait(st, key, kind), w) && HoldsGiven(BeginWait(st, key, kind).waits[w], given)
  {
    hide Offered, SignalOk, DecisionOk;
  }

  lemma NextHoldsGiven(st: State, step: Step, w: nat, given: seq<Decision>)
    requires WaitsOk(st) && Known(st, w) && HoldsGiven(st.waits[w], given)
    ensures Known(Next(st, step), w)
    ensures HoldsGiven(Next(st, step).waits[w], given + if Gives(st, step, w) then [step.decision] else [])
  {
    assert WaitOk(st.waits[w]);
    hide WaitsOk;
    OfferedIsNotSpecial(st.waits[w].kind);
    assert given + [] == given;
    if step.DoDecide? {
      DecideHoldsGiven(st, step.key, step.decision, w, given);
      hide Decide, HoldsGiven, WaitOk, Gives, Put;
      WaitsGrow(st, step);
    } else if step.DoBeginWait? {
      BeginHoldsGiven(st, step.key, step.kind, w, given);
      hide BeginWait, HoldsGiven, WaitOk;
    } else {
      hide Decide, BeginWait, Offered;
    }
  }

  /** Nothing is given to a wait that does not exist yet. */
  lemma {:induction false} UnknownGiven(steps: seq<Step>, w: nat)
    requires !Known(After(steps), w)
    ensures GivenTo(steps, w) == []
  {
    if steps != [] {
      WaitsGrow(After(Front(steps)), Last(steps));
      UnknownGiven(Front(steps), w);
    }
  }

  lemma WaitsGrow(st: State, step: Step)
    ensures |Next(st, step).waits| == |st.waits| + if step.DoBeginWait? then 1 else 0
  {
  }

  lemma {:induction false} EveryRunHoldsGiven(steps: seq<Step>, w: nat)
    requires Known(After(steps), w)
    ensures HoldsGiven(After(steps).waits[w], GivenTo(steps, w))
  {
    hide HoldsGiven, Next, Gives, WaitsOk;
    if steps != [] {
      var st, step := After(Front(steps)), Last(steps);
      WaitsGrow(st, step);
      if Known(st, w) {
        EveryRunHoldsGiven(Front(steps), w);
        EveryRunWaitsOk(Front(steps));
        NextHoldsGiven(st, step, w, GivenTo(Front(steps), w));
      } else {
        UnknownGiven(Front(steps), w);
        NewHoldsGiven(st, step, w);
        assert GivenTo(Front(steps), w) + [] == [];
      }
    }
  }

  lemma NewHoldsGiven(st: State, step: Step, w: nat)
    requires !Known(st, w) && Known(Next(st, step), w)
    ensures !Gives(st, step, w) && HoldsGiven(Next(st, step).waits[w], [])
  {
  }

  lemma {:induction false} NoneGiven(steps: seq<Step>, w: nat, j: nat)
    requires GivenTo(steps, w) == [] && j < |steps|
    ensures !Gives(After(steps[..j]), steps[j], w)
  {
    hide Gives, After;
    if j < |steps| - 1 {
      NoneGiven(Front(steps), w, j);
      assert Front(steps)[..j] == steps[..j];
    }
  }

  /** The one step that gave `w` its decision. */
  ghost predicate OnlyGift(steps: seq<Step>, w: nat, d: Decision, i: nat) {
    && i < |steps| && Gives(After(steps[..i]), steps[i], w) && steps[i].decision == d
    && forall j :: 0 <= j < |steps| && Gives(After(steps[..j]), steps[j], w) ==> j == i
  }

  lemma {:induction false} GivenOnce(steps: seq<Step>, w: nat, d: Decision) returns (i: nat)
    requires GivenTo(steps, w) == [d]
    ensures OnlyGift(steps, w, d, i)
  {
    hide After;
    var n := |steps| - 1;
    var front := GivenTo(Front(steps), w);
    assert steps[..n] == Front(steps);
    if Gives(After(Front(steps)), Last(steps), w) {
      i := n;
      assert front + [Last(steps).decision] == [d];
      assert |front| == 0 && [Last(steps).decision] == [d] by { assert (front + [Last(steps).decision])[0] == d; }
      forall j | 0 <= j < |steps| && Gives(After(steps[..j]), steps[j], w) ensures j == i {
        assert j < n ==> Front(steps)[..j] == steps[..j];
        if j < n {
          NoneGiven(Front(steps), w, j);
        }
      }
    } else {
      assert front + [] == front;
      i := GivenOnce(Front(steps), w, d);
      forall j | 0 <= j < n ensures Front(steps)[..j] == steps[..j] && Front(steps)[j] == steps[j] { }
      forall j | 0 <= j < |steps| && Gives(After(steps[..j]), steps[j], w) ensures j == i {
        if j < n {
          assert Gives(After(Front(steps)[..j]), Front(steps)[j], w);
        }
      }
    }
  }

  /**
    In every interleaving, a wait that returned a decision other than superseded or dismissed was given
    exactly that decision, in exactly one step, taken while the wait was registered under the key of the
    decision and undecided; and a wait that was superseded or dismissed was given none.
   */
  lemma ReturnedIsGiven(steps: seq<Step>, w: nat) returns (i: nat)
    requires Known(After(steps), w) && (After(steps).waits[w].phase.Returned? || After(steps).waits[w].phase.Cleaned?)
    ensures var d := After(steps).waits[w].phase.decision;
      if d in {Superseded, Dismissed} then GivenTo(steps, w) == [] else OnlyGift(steps, w, d, i)
  {
    EveryRunHoldsGiven(steps, w);
    i := 0;
    var d := After(steps).waits[w].phase.decision;
    if d !in {Superseded, Dismissed} {
      i := GivenOnce(steps, w, d);
    }
  }

  /** After the cleanup of a displaced wait, the next wait of the session is a second registered one. */
  lemma DisplacedCleanupBreaksIt(st: State, w: nat, call: string, kind: Kind)
    requires EntriesOk(st) && InStep(st) && Displaced(st, DoCleanup(w)) && call != st.waits[w].key.call
    ensures !OneEach(BeginWait(Cleanup(st, w), Key(st.waits[w].key.session, call), kind))
  {
    var first := st.waits[w].key;
    var second := Key(first.session, call);
    var next := BeginWait(Cleanup(st, w), second, kind);
    assert first in next.waiting && second in next.waiting && first != second;
  }

  /** A call id used again at once: the second wait displaces the first, which is then cancelled. */
  const ReusedCall: seq<Step> := [DoBeginWait(Key("s", "c"), NoScopes), DoBeginWait(Key("s", "c"), NoScopes), DoCancel(0), DoPublishDismissed(0)]

  lemma ReusedCallState()
    ensures var c := Key("s", "c");
      After(ReusedCall) == PublishDismissed(Cancel(BeginWait(BeginWait(Initial, c, NoScopes), c, NoScopes), 0), 0)
  {
    hide BeginWait, Cancel, PublishDismissed;
    var c, steps := Key("s", "c"), ReusedCall;
    assert steps[..3][..2] == steps[..2] && steps[..2][..1] == steps[..1] && steps[..1][..0] == [];
    assert After(steps[..1]) == BeginWait(Initial, c, NoScopes);
    assert After(steps[..2]) == BeginWait(BeginWait(Initial, c, NoScopes), c, NoScopes);
  }

  lemma ReusedCallDisplaces(c: Key)
    ensures var st := PublishDismissed(Cancel(BeginWait(BeginWait(Initial, c, NoScopes), c, NoScopes), 0), 0);
      Displaced(st, DoCleanup(0)) && InStep(st) && st.waits[0].key == c
  {
    var s1 := BeginWait(Initial, c, NoScopes);
    assert s1 == State([Wait(c, NoScopes, false, [], 0, Nothing, Waiting, [])], map[c := 0], map[c.session := c]);
    var s2 := BeginWait(s1, c, NoScopes);
    assert s2.waiting == map[c := 1] && |s2.waits| == 2 && s2.waits[0].key == c && s2.waits[0].phase == Waiting && !s2.waits[0].decided;
    hide BeginWait;
  }

  /** A call id reused while its first wait is unfinished reaches that: in the end the session has two registered waits. */
  lemma ReusedCallBreaksIt()
    ensures Displaced(After(ReusedCall), DoCleanup(0))
    ensures !OneEach(After(ReusedCall + [DoCleanup(0)] + [DoBeginWait(Key("s", "d"), NoScopes)]))
  {
    ReusedCallState();
    ReusedCallDisplaces(Key("s", "c"));
    EveryRunEntriesOk(ReusedCall);
    var st := After(ReusedCall);
    hide Displaced, EntriesOk, InStep, BeginWait, Cleanup, OneEach, After, Cancel, PublishDismissed;
    DisplacedCleanupBreaksIt(st, 0, "d", NoScopes);
    AfterPush(ReusedCall, DoCleanup(0));
    AfterPush(ReusedCall + [DoCleanup(0)], DoBeginWait(Key("s", "d"), NoScopes));
  }

  /** What an answer to a decision means: it is in the channel of the registered wait, or nothing happened. */
  lemma DecideMeans(st: State, key: Key, d: Decision)
    requires WaitsOk(st)
    ensures var (next, outcome) := Decide(st, key, d);
      && (outcome == Accepted <==> key in st.waiting && st.waiting[key] < |st.waits| && !st.waits[st.waiting[key]].decided && d in Offered(st.waits[st.waiting[key]].kind))
      && next.waiting == st.waiting && next.pendingBySession == st.pendingBySession && |next.waits| == |st.waits|
      && (outcome == Accepted ==>
            var w := st.waiting[key];
            next.waits[w].inbox == [Signal(d, false)] && next.waits[w].decided && next.waits == st.waits[w := next.waits[w]])
      && (outcome == Refused ==> next == st)
  {
    if key in st.waiting && Known(st, st.waiting[key]) {
      var wait := st.waits[st.waiting[key]];
      assert WaitOk(wait);
      TestsMatchOffer(wait.kind, d);
      assert wait.inbox == [] ==> wait.inbox + [Signal(d, false)] == [Signal(d, false)];
      hide WaitOk, WaitsOk, Offered, ScopeAllows;
    }
  }

  /** The wait that a new one of this key supersedes: the session's pending one, under another key, while it is undecided. */
  function Superseding(st: State, key: Key): Option<nat> {
    if key.session in st.pendingBySession && st.pendingBySession[key.session] != key
      && st.pendingBySession[key.session] in st.waiting
      && Known(st, st.waiting[st.pendingBySession[key.session]]) && !st.waits[st.waiting[st.pendingBySession[key.session]]].decided
    then Some(st.waiting[st.pendingBySession[key.session]]) else None
  }

  // ----- the object ---------------------------------------------------------------------------------

  /**
    The gate object: its two registries and the waits they point to.  Each method is one atomic section
    or one publication or channel operation, so the object is always where its steps have brought it and
    the theorems above hold of it.
   */
  class ApprovalGate {
    var waits: seq<Wait>
    var waiting: map<Key, nat>
    var pendingBySession: map<string, Key>
    ghost var steps: seq<Step>

    function View(): State
      reads this
    {
      State(waits, waiting, pendingBySession)
    }

    ghost predicate Valid()
      reads this
    {
      View() == After(steps)
    }

    constructor ()
      ensures Valid() && steps == []
    {
      waits, waiting, pendingBySession, steps := [], map[], map[], [];
    }

    /** What every gate in use satisfies. */
    lemma AlwaysHolds()
      requires Valid()
      ensures WaitsOk(View()) && EntriesOk(View())
      ensures NoneDisplaced(steps) ==> OneEach(View())
    {
      EveryRunWaitsOk(steps);
      EveryRunEntriesOk(steps);
      if NoneDisplaced(steps) {
        InStepThroughoutIff(steps);
        assert steps[..|steps|] == steps;
      }
    }

    /** Registers a wait; returns it and, if there is one, the wait it superseded. */
    method BeginWaitLocked(key: Key, kind: Kind) returns (wait: nat, superseded: Option<nat>)
      requires Valid()
      modifies this
      ensures Valid() && steps == old(steps) + [DoBeginWait(key, kind)]
      ensures wait == |old(waits)| && wait < |waits| && waits[wait] == Wait(key, kind, false, [], 0, Nothing, Waiting, [])
      ensures key in waiting && waiting[key] == wait
      ensures superseded == Superseding(old(View()), key)
      ensures superseded.Some? ==> superseded.value < |waits| && waits[superseded.value].notice == OwesEvent
    {
      superseded := None;
      if key.session in pendingBySession && pendingBySession[key.session] != key {
        var priorKey := pendingBySession[key.session];
        if priorKey in waiting && waiting[priorKey] < |waits| {
          var prior := waiting[priorKey];
          if !waits[prior].decided {
            waits := waits[prior := waits[prior].(decided := true, notice := OwesEvent)];
            superseded := Some(prior);
          }
        }
        waiting := waiting - {priorKey};
      }
      wait := |waits|;
      waits := waits + [Wait(key, kind, false, [], 0, Nothing, Waiting, [])];
      waiting := waiting[key := wait];
      pendingBySession := pendingBySession[key.session := key];
      assert View() == BeginWait(old(View()), key, kind);
      steps := steps + [DoBeginWait(key, kind)];
      AfterPush(old(steps), DoBeginWait(key, kind));
    }

    method DecideWith(key: Key, decision: Decision) returns (outcome: Outcome)
      requires Valid()
      modifies this`waits, this`steps
      ensures Valid() && steps == old(steps) + [DoDecide(key, decision)]
      ensures outcome == Accepted <==>
        key in waiting && waiting[key] < |old(waits)| && !old(waits)[waiting[key]].decided && decision in Offered(old(waits)[waiting[key]].kind)
      ensures outcome == Accepted ==>
        var w := waiting[key]; w < |waits| && waits[w].inbox == [Signal(decision, false)] && waits == old(waits)[w := waits[w]]
      ensures outcome == Refused ==> waits == old(waits)
    {
      EveryRunWaitsOk(steps);
      DecideMeans(View(), key, decision);
      AfterPush(steps, DoDecide(key, decision));
      hide After, WaitsOk, Decide, Offered;
      outcome := DecideLocked(key, decision);
      steps := steps + [DoDecide(key, decision)];
    }

    /** The tests in their order, and the send. */
    method DecideLocked(key: Key, decision: Decision) returns (outcome: Outcome)
      modifies this`waits
      ensures (View(), outcome) == Decide(old(View()), key, decision)
    {
      if !ValidDecision(decision) {
        return Refused;
      }
      if key !in waiting || waiting[key] >= |waits| {
        return Refused;
      }
      var w := waiting[key];
      var kind := waits[w].kind;
      if decision == RunScope && kind != ShellScopes && kind != FileScopes {
        return Refused;
      }
      if decision == SessionScope && kind == NoScopes {
        return Refused;
      }
      if decision == OperatorMode && kind != ShellScopes {
        return Refused;
      }
      if (decision == Continue || decision == StopRun) && kind != Cycle {
        return Refused;
      }
      if kind == Cycle && decision != Continue && decision != StopRun {
        return Refused;
      }
      if waits[w].decided {
        return Refused;
      }
      waits := waits[w := waits[w].(decided := true)];
      waits := waits[w := Send(waits[w], Signal(decision, false))];
      assert waits == old(waits)[w := waits[w]];
      return Accepted;
    }

    /** The goroutine that superseded a wait publishes that, and then tells the waiting goroutine. */
    method TellSuperseded(w: nat)
      requires Valid() && w < |waits| && waits[w].notice == OwesEvent
      modifies this`waits, this`steps
      ensures Valid() && steps == old(steps) + [DoPublishSuperseded(w), DoSendSuperseded(w)]
      ensures w < |waits| && waits[w].inbox == [Signal(Superseded, true)]
    {
      EveryRunWaitsOk(steps);
      assert WaitOk(waits[w]);
      waits := waits[w := waits[w].(notice := OwesSignal, published := waits[w].published + [Superseded])];
      AfterPush(steps, DoPublishSuperseded(w));
      steps := steps + [DoPublishSuperseded(w)];
      assert Valid();
      waits := waits[w := Send(waits[w], Signal(Superseded, true)).(notice := Nothing)];
      AfterPush(steps, DoSendSuperseded(w));
      steps := steps + [DoSendSuperseded(w)];
    }

    /** The ctx.Done branch: dismiss the wait and publish that, unless it was decided first. */
    method CancelWait(w: nat) returns (dismissed: bool)
      requires Valid() && w < |waits| && waits[w].phase == Waiting
      modifies this`waits, this`steps
      ensures Valid()
      ensures dismissed <==> !old(waits[w].decided)
      ensures w < |waits|
      ensures if dismissed then waits[w].phase == Returned(Dismissed) && waits[w].published == [Dismissed] else waits == old(waits)
    {
      EveryRunWaitsOk(steps);
      assert WaitOk(waits[w]);
      dismissed := !waits[w].decided;
      AfterPush(steps, DoCancel(w));
      if dismissed {
        waits := waits[w := waits[w].(decided := true, phase := Cancelled)];
      }
      steps := steps + [DoCancel(w)];
      assert Valid();
      if dismissed {
        AfterPush(steps, DoPublishDismissed(w));
        waits := waits[w := waits[w].(phase := Returned(Dismissed), published := waits[w].published + [Dismissed])];
        steps := steps + [DoPublishDismissed(w)];
      }
    }

    /** The waiting goroutine takes its signal, publishes it unless that was done, and returns the decision. */
    method TakeDecision(w: nat) returns (decision: Decision)
      requires Valid() && w < |waits| && waits[w].phase == Waiting && waits[w].inbox != []
      modifies this`waits, this`steps
      ensures Valid()
      ensures w < |waits| && waits[w].phase == Returned(decision) && waits[w].published == [decision]
      ensures decision == old(waits[w].inbox[0].decision) && (decision == Superseded || decision in Offered(waits[w].kind))
    {
      EveryRunWaitsOk(steps);
      assert WaitOk(waits[w]);
      OfferedIsNotSpecial(waits[w].kind);
      hide Offered, WaitsOk, After, BeginWait, Decide, Cleanup, Cancel;
      var signal := waits[w].inbox[0];
      decision := signal.decision;
      AfterPush(steps, DoReceive(w));
      waits := waits[w := waits[w].(phase := Received(signal), inbox := waits[w].inbox[1..])];
      steps := steps + [DoReceive(w)];
      assert Valid();
      AfterPush(steps, DoReturn(w));
      waits := waits[w := waits[w].(
        phase := Returned(decision),
        published := if signal.logged then waits[w].published else waits[w].published + [decision])];
      steps := steps + [DoReturn(w)];
    }

    /** The deferred cleanup: afterwards the wait is not registered, and a newer wait that displaced it still is. */
    method CleanupLocked(w: nat)
      requires Valid() && w < |waits| && waits[w].phase.Returned?
      modifies this
      ensures Valid() && steps == old(steps) + [DoCleanup(w)]
      ensures forall k :: k in waiting <==> k in old(waiting) && old(waiting)[k] != w
    {
      EveryRunEntriesOk(steps);
      CleanupEntriesOk(View(), w);
      hide EntriesOk, After;
      AfterPush(steps, DoCleanup(w));
      var key := waits[w].key;
      waits := waits[w := waits[w].(phase := Cleaned(waits[w].phase.decision))];
      if key in waiting && waiting[key] == w {
        waiting := waiting - {key};
      }
      if key.session in pendingBySession && pendingBySession[key.session] == key {
        pendingBySession := pendingBySession - {key.session};
      }
      steps := steps + [DoCleanup(w)];
      assert View() == Cleanup(old(View()), w);
    }
  }

  lemma AfterPush(steps: seq<Step>, step: Step)
    ensures After(steps + [step]) == Next(After(steps), step)
  {
    assert (steps + [step])[..|steps|] == steps;
  }
}
