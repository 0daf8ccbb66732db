/**
  The live message list of a session and its event-sourced copy.  Compaction, repair and the other
  list operations edit the live list and publish events; the projector folds the events.  The two
  lists must stay the same.
 */
module Transcript {
  import opened Prelude

  datatype Role = System | User | Assistant | Tool

  datatype Category = History | Summary | Files | Results | Fetched | OtherCategory(name: string)

  datatype ToolCall = ToolCall(id: string, name: string, arguments: string)

  datatype Message = Message(
    id: string, role: Role, content: string, reasoning: string, calls: seq<ToolCall>, callId: string,
    name: string, category: Category, tokens: int, elided: bool, turn: int, ok: Option<bool>)

  /** The events that change the projected message list, and the two that only report. */
  datatype Event =
    | MessageAppended(message: Message)
    | MessageUpdated(id: string, content: Option<string>, tokens: Option<int>, elided: Option<bool>, calls: Option<seq<ToolCall>>)
    | MessageRemoved(removed: string)
    | Compaction(summarize: bool, affected: seq<string>)
    | CompactionSummary(accepted: bool)
    | ModelRetry
    | SessionReset

  // ----- the projector -------------------------------------------------------------------------

  function Patch(m: Message, e: Event): Message
    requires e.MessageUpdated?
  {
    m.(content := if e.content.Some? then e.content.value else m.content,
       tokens := if e.tokens.Some? then e.tokens.value else m.tokens,
       elided := if e.elided.Some? then e.elided.value else m.elided,
       calls := if e.calls.Some? then e.calls.value else m.calls)
  }

  function PatchAll(messages: seq<Message>, e: Event): (r: seq<Message>)
    requires e.MessageUpdated?
    ensures |r| == |messages|
    ensures forall i :: 0 <= i < |messages| ==> r[i] == if messages[i].id == e.id then Patch(messages[i], e) else messages[i]
  {
    seq(|messages|, i requires 0 <= i < |messages| => if messages[i].id == e.id then Patch(messages[i], e) else messages[i])
  }

  /** The messages whose id is not in `ids`, in order. */
  function Without(messages: seq<Message>, ids: set<string>): seq<Message> {
    if messages == [] then []
    else (if messages[0].id in ids then [] else [messages[0]]) + Without(messages[1..], ids)
  }

  function Members(ids: seq<string>): set<string> {
    set id | id in ids
  }

  /** The message cases of Next: the effect of one event on the projected list. */
  function Project(messages: seq<Message>, e: Event): seq<Message> {
    match e
    case MessageAppended(m) =>
      if m.category == Summary then
        var at := if |messages| < 1 then |messages| else 1;
        messages[..at] + [m] + messages[at..]
      else messages + [m]
    case MessageUpdated(_, _, _, _, _) => PatchAll(messages, e)
    case MessageRemoved(id) => Without(messages, {id})
    case Compaction(summarize, affected) => if summarize then Without(messages, Members(affected)) else messages
    case SessionReset => []
    case _ => messages
  }

  function Fold(messages: seq<Message>, events: seq<Event>): seq<Message> {
    if events == [] then messages
    else Project(Fold(messages, events[..|events| - 1]), events[|events| - 1])
  }

  // ----- the code the model does not look into ---------------------------------------------------

  /**
    Tokenizing, the wording of stubs, whether one read covers another, the two text tests and JSON
    decoding are arbitrary functions: every statement below holds for all of them.
   */
  datatype Env = Env(
    count: string -> nat,
    stub: (Message, string) -> string,
    covers: (string, string, string) -> bool,
    blank: string -> bool,
    refusal: string -> bool,
    decodes: string -> bool)

  // ----- list edits -------------------------------------------------------------------------------

  /** A list being edited, with the events published and the ids affected so far. */
  datatype Edit = Edit(messages: seq<Message>, events: seq<Event>, affected: seq<string>)

  /** Replace message `i` by `m` and publish the update, as compaction does. */
  function Rewrite(st: Edit, i: nat, m: Message): Edit
    requires i < |st.messages|
  {
    Edit(st.messages[i := m],
         st.events + [MessageUpdated(m.id, Some(m.content), Some(m.tokens), Some(true), None)],
         st.affected + [m.id])
  }

  function Elide(env: Env, m: Message, arguments: string): Message {
    var stub := env.stub(m, arguments);
    m.(content := stub, elided := true, tokens := env.count(stub))
  }

  function CallIn(calls: seq<ToolCall>, id: string): Option<string> {
    if calls == [] then None
    else if calls[0].id == id then Some(calls[0].arguments)
    else CallIn(calls[1..], id)
  }

  /** The arguments of the first recorded call with this id. */
  function CallFor(messages: seq<Message>, id: string): Option<string> {
    if messages == [] then None
    else
      var here := CallIn(messages[0].calls, id);
      if here.Some? then here else CallFor(messages[1..], id)
  }

  predicate Successful(m: Message) {
    m.ok == Some(true)
  }

  predicate Supersedable(m: Message) {
    m.role == Tool && !m.elided && Successful(m)
  }

  predicate StartsSupersession(m: Message, turn: int) {
    Supersedable(m) && m.turn == turn && (m.name == "read_file" || m.name == "search_text")
  }

  /** Whether the result at `prior` is replaced by the newer `item`, whose call had `arguments`. */
  predicate IsSuperseded(env: Env, messages: seq<Message>, prior: nat, item: Message, arguments: string)
    requires prior < |messages|
  {
    var older := messages[prior];
    && Supersedable(older) && older.name == item.name
    && CallFor(messages, older.callId).Some?
    && env.covers(item.name, CallFor(messages, older.callId).value, arguments)
  }

  function SupersedePrior(env: Env, st: Edit, item: Message, arguments: string, prior: nat, current: nat): (r: Edit)
    requires prior <= current <= |st.messages|
    ensures |r.messages| == |st.messages|
    decreases current - prior
  {
    if prior == current then st
    else
      var next :=
        if IsSuperseded(env, st.messages, prior, item, arguments) then
          Rewrite(st, prior, Elide(env, st.messages[prior], CallFor(st.messages, st.messages[prior].callId).value))
        else st;
      SupersedePrior(env, next, item, arguments, prior + 1, current)
  }

  function SupersedeFrom(env: Env, st: Edit, turn: int, current: nat): (r: Edit)
    requires current <= |st.messages|
    ensures |r.messages| == |st.messages|
    decreases |st.messages| - current
  {
    if current == |st.messages| then st
    else
      var item := st.messages[current];
      var call := CallFor(st.messages, item.callId);
      var next :=
        if StartsSupersession(item, turn) && call.Some? then SupersedePrior(env, st, item, call.value, 0, current)
        else st;
      SupersedeFrom(env, next, turn, current + 1)
  }

  /** What an operation leaves behind: the live list, what it published, and whether it changed anything. */
  datatype Result = Result(messages: seq<Message>, events: seq<Event>, changed: bool)

  function Close(before: seq<Message>, st: Edit): Result {
    if st.affected == [] then Result(before, [], false)
    else Result(st.messages, st.events + [Compaction(false, st.affected)], true)
  }

  function Supersede(env: Env, messages: seq<Message>, turn: int): Result {
    Close(messages, SupersedeFrom(env, Edit(messages, [], []), turn, 0))
  }

  predicate EligibleOutcome(env: Env, m: Message) {
    if m.ok.Some? then m.ok.value else !env.refusal(m.content)
  }

  /** A tool result that may still be elided. */
  predicate Eligible(env: Env, m: Message) {
    !m.elided && EligibleOutcome(env, m) && m.category in {Files, Results, Fetched}
  }

  function OpenTools(messages: seq<Message>): nat {
    if messages == [] then 0
    else OpenTools(messages[1..]) + (if messages[0].role == Tool && !messages[0].elided then 1 else 0)
  }

  /** The last four un-elided tool results are left alone: `index` is one of them. */
  predicate Recent(messages: seq<Message>, index: nat)
    requires index < |messages|
  {
    messages[index].role == Tool && !messages[index].elided && OpenTools(messages[index + 1..]) < 4
  }

  function ArgumentsOr(call: Option<string>): string {
    if call.Some? then call.value else ""
  }

  function ElideFrom(env: Env, before: seq<Message>, st: Edit, used: int, target: int, index: nat): (r: (Edit, int))
    requires index <= |st.messages| == |before|
    ensures |r.0.messages| == |before|
    decreases |before| - index
  {
    if index == |before| || used <= target then (st, used)
    else if Recent(before, index) || !Eligible(env, st.messages[index]) then
      ElideFrom(env, before, st, used, target, index + 1)
    else
      var m := st.messages[index];
      var updated := Elide(env, m, ArgumentsOr(CallFor(st.messages, m.callId)));
      ElideFrom(env, before, Rewrite(st, index, updated), used - Max(0, m.tokens - updated.tokens), target, index + 1)
  }

  function ElideOld(env: Env, messages: seq<Message>, used: int, target: int): (Result, int) {
    var (st, left) := ElideFrom(env, messages, Edit(messages, [], []), used, target, 0);
    (Close(messages, st), left)
  }

  function TokenSum(messages: seq<Message>): int {
    if messages == [] then 0 else messages[0].tokens + TokenSum(messages[1..])
  }

  function Ids(messages: seq<Message>): (r: seq<string>)
    ensures |r| == |messages|
    ensures forall i :: 0 <= i < |messages| ==> r[i] == messages[i].id
  {
    seq(|messages|, i requires 0 <= i < |messages| => messages[i].id)
  }

  /** Summarize keeps the first message and the last six, with the summary after the first. */
  function Summarized(messages: seq<Message>, summary: Message): seq<Message>
    requires |messages| > 7
  {
    [messages[0], summary] + messages[|messages| - 6..]
  }

  /** Summarize and, when it accepts, the append event that its caller publishes for the summary. */
  function Summarize(messages: seq<Message>, summary: Message): Result {
    if |messages| <= 7 then Result(messages, [], false)
    else if TokenSum(Summarized(messages, summary)) >= TokenSum(messages) then
      Result(messages, [CompactionSummary(false)], false)
    else
      Result(Summarized(messages, summary),
             [CompactionSummary(true), Compaction(true, Ids(messages[1..|messages| - 6])), MessageAppended(summary)], true)
  }

  predicate Settleable(m: Message, wanted: set<string>) {
    m.id in wanted && !m.elided && (m.role == User || m.role == Assistant)
  }

  function SettleOne(env: Env, m: Message, pointer: string): Message {
    m.(content := pointer, calls := [], reasoning := "", elided := true, tokens := env.count(pointer))
  }

  function SettleFrom(env: Env, st: Edit, pointer: string, wanted: set<string>, index: nat): (r: Edit)
    requires index <= |st.messages|
    ensures |r.messages| == |st.messages|
    decreases |st.messages| - index
  {
    if index == |st.messages| then st
    else
      var m := st.messages[index];
      SettleFrom(env, if Settleable(m, wanted) then Rewrite(st, index, SettleOne(env, m, pointer)) else st, pointer, wanted, index + 1)
  }

  function Settle(env: Env, messages: seq<Message>, pointer: string, ids: seq<string>): Result {
    var wanted := set id | id in ids && !env.blank(id);
    Close(messages, SettleFrom(env, Edit(messages, [], []), pointer, wanted, 0))
  }

  predicate Unrenderable(env: Env, m: Message) {
    m.role == Assistant && exists call :: call in m.calls && !env.decodes(call.arguments)
  }

  /** The last assistant message with a call whose arguments do not decode. */
  function BadIndex(env: Env, messages: seq<Message>): (r: Option<nat>)
    ensures r.Some? ==> r.value < |messages| && Unrenderable(env, messages[r.value])
    ensures forall k :: (if r.Some? then r.value + 1 else 0) <= k < |messages| ==> !Unrenderable(env, messages[k])
  {
    if messages == [] then None
    else if Unrenderable(env, messages[|messages| - 1]) then Some(|messages| - 1)
    else BadIndex(env, messages[..|messages| - 1])
  }

  /** `here` says that `m` is the bad message itself. */
  predicate Dropped(env: Env, m: Message, bad: Message, here: bool) {
    if here then env.blank(m.content)
    else m.role == Tool && exists call :: call in bad.calls && call.id == m.callId
  }

  /**
    What the repair keeps: the bad message (at index `at`) without its calls unless it is blank, and
    every other message that is not a result of one of its calls.
   */
  function Kept(env: Env, messages: seq<Message>, bad: Message, at: int): seq<Message> {
    if messages == [] then []
    else
      (if Dropped(env, messages[0], bad, at == 0) then []
       else if at == 0 then [messages[0].(calls := [])]
       else [messages[0]]) + Kept(env, messages[1..], bad, at - 1)
  }

  function Gone(env: Env, messages: seq<Message>, bad: Message, at: int): seq<string> {
    if messages == [] then []
    else (if Dropped(env, messages[0], bad, at == 0) then [messages[0].id] else []) + Gone(env, messages[1..], bad, at - 1)
  }

  function Removals(ids: seq<string>): (r: seq<Event>)
    ensures |r| == |ids|
    ensures forall i :: 0 <= i < |ids| ==> r[i] == MessageRemoved(ids[i])
  {
    seq(|ids|, i requires 0 <= i < |ids| => MessageRemoved(ids[i]))
  }

  function Repair(env: Env, messages: seq<Message>): Result {
    var at := BadIndex(env, messages);
    if at.None? then Result(messages, [], false)
    else
      var bad := messages[at.value];
      var cleared := if env.blank(bad.content) then [] else [MessageUpdated(bad.id, None, None, None, Some([]))];
      Result(Kept(env, messages, bad, at.value), cleared + Removals(Gone(env, messages, bad, at.value)) + [ModelRetry], true)
  }

  function DropLast(messages: seq<Message>): Result {
    if messages == [] then Result(messages, [], false)
    else Result(messages[..|messages| - 1], [MessageRemoved(messages[|messages| - 1].id)], true)
  }

  // ----- operations -----------------------------------------------------------------------------------

  datatype Op =
    | DoAppend(message: Message)
    | DoSupersede(turn: int)
    | DoElideOld(used: int, target: int)
    | DoSummarize(summary: Message)
    | DoSettle(pointer: string, ids: seq<string>)
    | DoRepair
    | DoDropLast
    | DoReset

  function Operate(env: Env, messages: seq<Message>, op: Op): Result {
    match op
    case DoAppend(m) => Result(messages + [m], [MessageAppended(m)], true)
    case DoSupersede(turn) => Supersede(env, messages, turn)
    case DoElideOld(used, target) => ElideOld(env, messages, used, target).0
    case DoSummarize(summary) => Summarize(messages, summary)
    case DoSettle(pointer, ids) => Settle(env, messages, pointer, ids)
    case DoRepair => Repair(env, messages)
    case DoDropLast => DropLast(messages)
    case DoReset => Result([], [SessionReset], true)
  }

  /** The live list and everything published after a sequence of operations. */
  function After(env: Env, ops: seq<Op>): Result {
    if ops == [] then Result([], [], false)
    else
      var before := After(env, ops[..|ops| - 1]);
      var r := Operate(env, before.messages, ops[|ops| - 1]);
      Result(r.messages, before.events + r.events, r.changed)
  }

  /** New messages have new ids; appended ones are not summaries, and only summaries summarize. */
  ghost predicate WellFormedOp(messages: seq<Message>, op: Op) {
    match op
    case DoAppend(m) => m.id !in Ids(messages) && m.category != Summary
    case DoSummarize(summary) => summary.id !in Ids(messages) && summary.category == Summary
    case _ => true
  }

  ghost predicate WellFormed(env: Env, ops: seq<Op>) {
    ops != [] ==>
      && WellFormed(env, ops[..|ops| - 1])
      && WellFormedOp(After(env, ops[..|ops| - 1]).messages, ops[|ops| - 1])
  }
}
