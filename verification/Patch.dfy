/**
  Snapshot patches.  `Diff` produces the operations the projector ships for a changed snapshot, and
  `Apply` is what the browser does with them.
  Applying the difference to the old snapshot gives the new one.
 */
module Patch {
  import opened Prelude
  import opened Pointer

  /** A JSON value that is only compared and shipped whole. */
  type Json = string

  datatype Cursor = Cursor(generation: string, offset: nat)

  /** A chat entry; `rest` stands for the fields that diffChat never looks at on their own. */
  datatype ChatEntry = ChatEntry(key: string, text: string, reasoning: string, rest: Json)

  datatype Run = Run(partial: string, rest: Json)

  /** The snapshot: the fields that are replaced whole, and the three parts with operations of their own. */
  datatype Snapshot = Snapshot(cursor: Cursor, fields: map<string, Json>, run: Run, chat: seq<ChatEntry>, timeline: seq<Json>)

  datatype Verb = Append | Replace | Upsert

  datatype Value =
    | Text(text: string) | Entry(entry: ChatEntry) | Chat(chat: seq<ChatEntry>)
    | RunValue(run: Run) | Item(item: Json) | Items(items: seq<Json>) | Field(field: Json)

  datatype Operation = Operation(verb: Verb, path: string, value: Value)

  datatype Patch = Patch(previous: Cursor, cursor: Cursor, operations: seq<Operation>)

  // ----- the projector's side -------------------------------------------------------------------

  predicate HasPrefix(s: string, prefix: string) {
    prefix <= s
  }

  function DiffRun(before: Run, after: Run): seq<Operation> {
    if before == after then []
    else if before.(partial := "") == after.(partial := "") && HasPrefix(after.partial, before.partial) then
      [Operation(Append, "/run/partial", Text(after.partial[|before.partial|..]))]
    else [Operation(Replace, "/run", RunValue(after))]
  }

  function ChatPath(key: string): string {
    "/chat/" + Escape(key)
  }

  predicate SameKeys(before: seq<ChatEntry>, after: seq<ChatEntry>) {
    |before| == |after| && forall i :: 0 <= i < |after| ==> before[i].key == after[i].key
  }

  /** One upsert for each entry that changed, in order. */
  function Upserts(before: seq<ChatEntry>, after: seq<ChatEntry>): seq<Operation>
    requires |before| == |after|
  {
    if after == [] then []
    else
      (if before[0] == after[0] then [] else [Operation(Upsert, ChatPath(after[0].key), Entry(after[0]))])
      + Upserts(before[1..], after[1..])
  }

  /** Only the last entry changed, and it kept its key. */
  function DiffLast(left: ChatEntry, right: ChatEntry): Operation {
    if left.(reasoning := "") == right.(reasoning := "") && HasPrefix(right.reasoning, left.reasoning) then
      Operation(Append, ChatPath(right.key) + "/reasoning", Text(right.reasoning[|left.reasoning|..]))
    else if left.(text := "") == right.(text := "") && HasPrefix(right.text, left.text) then
      Operation(Append, ChatPath(right.key) + "/text", Text(right.text[|left.text|..]))
    else Operation(Upsert, ChatPath(right.key), Entry(right))
  }

  function DiffChat(before: seq<ChatEntry>, after: seq<ChatEntry>): seq<Operation> {
    if before == after then []
    else if |after| == |before| + 1 && before == after[..|before|] then
      [Operation(Append, "/chat", Entry(Last(after)))]
    else if |after| == |before| && |after| > 0 && Front(before) == Front(after) && Last(before).key == Last(after).key then
      [DiffLast(Last(before), Last(after))]
    else if SameKeys(before, after) then Upserts(before, after)
    else [Operation(Replace, "/chat", Chat(after))]
  }

  /** A field that is not there reads as the zero value. */
  function FieldOf(fields: map<string, Json>, name: string): Json {
    if name in fields then fields[name] else ""
  }

  function DiffFields(names: seq<string>, before: map<string, Json>, after: map<string, Json>): seq<Operation> {
    if names == [] then []
    else
      (if FieldOf(before, names[0]) == FieldOf(after, names[0]) then []
       else [Operation(Replace, "/" + names[0], Field(FieldOf(after, names[0])))])
      + DiffFields(names[1..], before, after)
  }

  function DiffTimeline(before: seq<Json>, after: seq<Json>): seq<Operation> {
    if before == after then []
    else if |after| == |before| + 1 && before == after[..|before|] then [Operation(Append, "/timeline", Item(Last(after)))]
    else [Operation(Replace, "/timeline", Items(after))]
  }

  function Diff(names: seq<string>, before: Snapshot, after: Snapshot): Patch {
    Patch(before.cursor, after.cursor,
      DiffRun(before.run, after.run) + DiffChat(before.chat, after.chat)
      + DiffFields(names, before.fields, after.fields) + DiffTimeline(before.timeline, after.timeline))
  }

  // ----- the client's side --------------------------------------------------------------------------

  /** The first entry with this key. */
  function FindKey(chat: seq<ChatEntry>, key: string): (r: Option<nat>)
    ensures r.Some? ==> r.value < |chat| && chat[r.value].key == key
    ensures r.None? ==> forall i :: 0 <= i < |chat| ==> chat[i].key != key
  {
    if chat == [] then None
    else if chat[0].key == key then Some(0)
    else
      var rest := FindKey(chat[1..], key);
      if rest.Some? then Some(rest.value + 1) else None
  }

  /** Replace the entry with this key, or add the entry when there is none. */
  function UpsertEntry(chat: seq<ChatEntry>, key: string, entry: ChatEntry): seq<ChatEntry> {
    var at := FindKey(chat, key);
    if at.Some? then chat[at.value := entry] else chat + [entry]
  }

  function AppendReasoning(chat: seq<ChatEntry>, key: string, text: string): seq<ChatEntry> {
    var at := FindKey(chat, key);
    if at.Some? then chat[at.value := chat[at.value].(reasoning := chat[at.value].reasoning + text)] else chat
  }

  function AppendText(chat: seq<ChatEntry>, key: string, text: string): seq<ChatEntry> {
    var at := FindKey(chat, key);
    if at.Some? then chat[at.value := chat[at.value].(text := chat[at.value].text + text)] else chat
  }

  /** One operation, addressed by the decoded tokens of its path. */
  function ApplyAt(s: Snapshot, verb: Verb, tokens: seq<string>, value: Value): Snapshot {
    if tokens == ["run", "partial"] && verb == Append && value.Text? then
      s.(run := s.run.(partial := s.run.partial + value.text))
    else if tokens == ["run"] && verb == Replace && value.RunValue? then s.(run := value.run)
    else if tokens == ["chat"] && verb == Append && value.Entry? then s.(chat := s.chat + [value.entry])
    else if tokens == ["chat"] && verb == Replace && value.Chat? then s.(chat := value.chat)
    else if tokens == ["timeline"] && verb == Append && value.Item? then s.(timeline := s.timeline + [value.item])
    else if tokens == ["timeline"] && verb == Replace && value.Items? then s.(timeline := value.items)
    else if |tokens| == 2 && tokens[0] == "chat" && verb == Upsert && value.Entry? then
      s.(chat := UpsertEntry(s.chat, tokens[1], value.entry))
    else if |tokens| == 3 && tokens[0] == "chat" && tokens[2] == "reasoning" && verb == Append && value.Text? then
      s.(chat := AppendReasoning(s.chat, tokens[1], value.text))
    else if |tokens| == 3 && tokens[0] == "chat" && tokens[2] == "text" && verb == Append && value.Text? then
      s.(chat := AppendText(s.chat, tokens[1], value.text))
    else if |tokens| == 1 && verb == Replace && value.Field? then s.(fields := s.fields[tokens[0] := value.field])
    else s
  }

  function ApplyOne(s: Snapshot, op: Operation): Snapshot {
    ApplyAt(s, op.verb, Tokens(op.path), op.value)
  }

  function ApplyAll(s: Snapshot, ops: seq<Operation>): Snapshot
    decreases |ops|
  {
    if ops == [] then s else ApplyAll(ApplyOne(s, ops[0]), ops[1..])
  }

  function Apply(s: Snapshot, patch: Patch): Snapshot {
    ApplyAll(s, patch.operations).(cursor := patch.cursor)
  }

  // ----- paths -----------------------------------------------------------------------------------------

  /** A name without the two characters that a pointer escapes. */
  ghost predicate Plain(name: string) {
    '/' !in name && '~' !in name
  }

  /** A plain field name is its own token. */
  lemma {:induction false} PlainEscape(name: string)
    requires Plain(name)
    ensures Escape(name) == name
  {
    if name != "" {
      assert name[0] in name;
      EscapeFirst(name);
      PlainEscape(name[1..]);
    } 
  }

  lemma PlainPath(name: string)
    requires Plain(name)
    ensures Tokens("/" + name) == [name]
  {
    PlainEscape(name);
    PathRoundTrip([name]);
    assert Path([name][1..]) == "";
    assert Path([name]) == "/" + name;
  }

  lemma PairPath(a: string, key: string)
    requires Plain(a)
    ensures Tokens("/" + a + "/" + Escape(key)) == [a, key]
  {
    PlainEscape(a);
    PathRoundTrip([a, key]);
    assert [a, key][1..] == [key] && [key][1..] == [];
    assert Path([key]) == "/" + Escape(key);
    assert Path([a, key]) == "/" + a + ("/" + Escape(key));
    assert "/" + a + ("/" + Escape(key)) == "/" + a + "/" + Escape(key);
  }

  lemma TriplePath(a: string, key: string, c: string)
    requires Plain(a) && Plain(c)
    ensures Tokens("/" + a + "/" + Escape(key) + "/" + c) == [a, key, c]
  {
    PlainEscape(a);
    PlainEscape(c);
    PathRoundTrip([a, key, c]);
    assert [a, key, c][1..] == [key, c] && [key, c][1..] == [c] && [c][1..] == [];
    assert Path([c]) == "/" + c;
    assert Path([key, c]) == "/" + Escape(key) + ("/" + c);
    assert Path([a, key, c]) == "/" + a + ("/" + Escape(key) + ("/" + c));
    assert "/" + a + ("/" + Escape(key) + ("/" + c)) == "/" + a + "/" + Escape(key) + "/" + c;
  }

  lemma PartPaths()
    ensures Tokens("/run") == ["run"] && Tokens("/chat") == ["chat"] && Tokens("/timeline") == ["timeline"]
  {
    hide Tokens;
    assert "/" + "run" == "/run" && "/" + "chat" == "/chat" && "/" + "timeline" == "/timeline";
    PlainPath("run");
    PlainPath("chat");
    PlainPath("timeline");
  }

  lemma PartialPath()
    ensures Tokens("/run/partial") == ["run", "partial"]
  {
    hide Tokens, Escape;
    PairPath("run", "partial");
    PlainEscape("partial");
    assert "/" + "run" + "/" + "partial" == "/run/partial";
  }

  lemma ChatPaths(key: string)
    ensures Tokens(ChatPath(key)) == ["chat", key]
    ensures Tokens(ChatPath(key) + "/reasoning") == ["chat", key, "reasoning"]
    ensures Tokens(ChatPath(key) + "/text") == ["chat", key, "text"]
  {
    hide Tokens, Escape;
    PairPath("chat", key);
    TriplePath("chat", key, "reasoning");
    TriplePath("chat", key, "text");
    ChatLiteral(key, "reasoning");
    ChatLiteral(key, "text");
    assert "/" + "reasoning" == "/reasoning" && "/" + "text" == "/text";
  }

  lemma ChatLiteral(key: string, part: string)
    ensures "/" + "chat" + "/" + Escape(key) == ChatPath(key)
    ensures "/" + "chat" + "/" + Escape(key) + "/" + part == ChatPath(key) + ("/" + part)
  {
    hide Escape;
    assert "/" + "chat" + "/" == "/chat/";
  }

  /** Keyed paths never collide: the path tells the key and what of the entry is meant. */
  lemma KeyedPathsDiffer(a: string, b: string)
    ensures ChatPath(a) == ChatPath(b) ==> a == b
    ensures ChatPath(a) + "/text" == ChatPath(b) + "/text" ==> a == b
    ensures ChatPath(a) + "/reasoning" == ChatPath(b) + "/reasoning" ==> a == b
    ensures ChatPath(a) != ChatPath(b) + "/text" && ChatPath(a) != ChatPath(b) + "/reasoning"
    ensures ChatPath(a) + "/text" != ChatPath(b) + "/reasoning"
  {
    ChatPaths(a);
    ChatPaths(b);
    assert ["chat", a][1] == a && ["chat", b][1] == b;
    assert ["chat", a, "text"][2] != ["chat", b, "reasoning"][2];
    assert |["chat", a]| != |["chat", b, "text"]|;
  }

  // ----- applying the parts -----------------------------------------------------------------------------

  lemma {:induction false} ApplyConcat(s: Snapshot, a: seq<Operation>, b: seq<Operation>)
    ensures ApplyAll(s, a + b) == ApplyAll(ApplyAll(s, a), b)
    decreases |a|
  {
    if a == [] {
      assert a + b == b;
    } else {
      assert (a + b)[1..] == a[1..] + b;
      ApplyConcat(ApplyOne(s, a[0]), a[1..], b);
    }
  }

  lemma ApplySingle(s: Snapshot, op: Operation)
    ensures ApplyAll(s, [op]) == ApplyOne(s, op)
  {
    assert [op][1..] == [];
  }

  lemma ApplyRun(s: Snapshot, after: Run)
    ensures ApplyAll(s, DiffRun(s.run, after)) == s.(run := after)
  {
    hide Tokens;
    PartPaths();
    PartialPath();
    if s.run != after {
      var op := DiffRun(s.run, after)[0];
      ApplySingle(s, op);
      if op.verb == Append {
        assert s.run.partial + after.partial[|s.run.partial|..] == after.partial;
        assert s.run.(partial := after.partial) == after by {
          assert s.run.(partial := "").rest == after.(partial := "").rest;
        }
      }
    }
  }

  lemma ApplyTimeline(s: Snapshot, after: seq<Json>)
    ensures ApplyAll(s, DiffTimeline(s.timeline, after)) == s.(timeline := after)
  {
    hide Tokens;
    PartPaths();
    if s.timeline != after {
      ApplySingle(s, DiffTimeline(s.timeline, after)[0]);
      assert |after| == |s.timeline| + 1 && s.timeline == after[..|s.timeline|] ==> s.timeline + [Last(after)] == after;
    }
  }

  /** Field names are plain and are not those of the parts with operations of their own. */
  ghost predicate FieldNames(names: seq<string>) {
    forall n :: n in names ==> Plain(n) && n != "run" && n != "chat" && n != "timeline"
  }

  /** What the field operations do to any client: the fields that changed get their new value. */
  function Patched(names: seq<string>, fields: map<string, Json>, before: map<string, Json>, after: map<string, Json>): map<string, Json>
    requires forall n :: n in names ==> n in before && n in after && n in fields
  {
    map n | n in fields :: if n in names && before[n] != after[n] then after[n] else fields[n]
  }

  lemma ApplyField(s: Snapshot, name: string, value: Json)
    requires Plain(name) && name != "run" && name != "chat" && name != "timeline"
    ensures ApplyOne(s, Operation(Replace, "/" + name, Field(value))) == s.(fields := s.fields[name := value])
  {
    PlainPath(name);
  }

  lemma PatchedStep(names: seq<string>, fields: map<string, Json>, before: map<string, Json>, after: map<string, Json>)
    requires names != [] && forall n :: n in names ==> n in before && n in after && n in fields
    ensures var name := names[0];
      Patched(names, fields, before, after)
      == Patched(names[1..], if before[name] == after[name] then fields else fields[name := after[name]], before, after)
  {
    assert forall n :: n in names <==> n == names[0] || n in names[1..];
  }

  lemma {:induction false} ApplyFields(names: seq<string>, s: Snapshot, before: map<string, Json>, after: map<string, Json>)
    requires FieldNames(names)
    requires forall n :: n in names ==> n in before && n in after && n in s.fields
    ensures ApplyAll(s, DiffFields(names, before, after)) == s.(fields := Patched(names, s.fields, before, after))
    decreases |names|
  {
    if names == [] {
      assert Patched(names, s.fields, before, after) == s.fields;
    } else {
      hide ApplyOne, Patched, Plain;
      var name, rest := names[0], names[1..];
      assert name in names && forall n :: n in rest ==> n in names;
      PatchedStep(names, s.fields, before, after);
      var ops := DiffFields(rest, before, after);
      if before[name] == after[name] {
        ApplyFields(rest, s, before, after);
        assert DiffFields(names, before, after) == [] + ops == ops;
      } else {
        ApplyField(s, name, after[name]);
        assert DiffFields(names, before, after)[1..] == ops;
        ApplyFields(rest, s.(fields := s.fields[name := after[name]]), before, after);
      }
    }
  }

  ghost predicate DistinctKeys(chat: seq<ChatEntry>) {
    forall i, j :: 0 <= i < j < |chat| ==> chat[i].key != chat[j].key
  }

  /** Upserting an entry under a key that is there once changes that entry and nothing else. */
  lemma UpsertAt(chat: seq<ChatEntry>, i: nat, entry: ChatEntry)
    requires DistinctKeys(chat) && i < |chat|
    ensures UpsertEntry(chat, chat[i].key, entry) == chat[i := entry]
    ensures AppendText(chat, chat[i].key, entry.text) == chat[i := chat[i].(text := chat[i].text + entry.text)]
    ensures AppendReasoning(chat, chat[i].key, entry.reasoning) == chat[i := chat[i].(reasoning := chat[i].reasoning + entry.reasoning)]
  {
    var at := FindKey(chat, chat[i].key);
    assert at == Some(i);
  }

  lemma ApplyLast(s: Snapshot, right: ChatEntry)
    requires s.chat != [] && DistinctKeys(s.chat) && Last(s.chat).key == right.key
    ensures ApplyAll(s, [DiffLast(Last(s.chat), right)]) == s.(chat := Front(s.chat) + [right])
  {
    var left, n := Last(s.chat), |s.chat| - 1;
    ApplySingle(s, DiffLast(left, right));
    assert s.chat[n := right] == Front(s.chat) + [right];
    hide Tokens, DistinctKeys, ApplyOne;
    if left.(reasoning := "") == right.(reasoning := "") && HasPrefix(right.reasoning, left.reasoning) {
      ApplyLastReasoning(s, right);
    } else if left.(text := "") == right.(text := "") && HasPrefix(right.text, left.text) {
      ApplyLastText(s, right);
    } else {
      ApplyLastUpsert(s, right);
    }
  }

  lemma ApplyLastReasoning(s: Snapshot, right: ChatEntry)
    requires s.chat != [] && DistinctKeys(s.chat)
    requires Last(s.chat).(reasoning := "") == right.(reasoning := "") && HasPrefix(right.reasoning, Last(s.chat).reasoning)
    ensures var suffix := right.reasoning[|Last(s.chat).reasoning|..];
      ApplyOne(s, Operation(Append, ChatPath(right.key) + "/reasoning", Text(suffix))) == s.(chat := s.chat[|s.chat| - 1 := right])
  {
    hide Tokens;
    var left, n := Last(s.chat), |s.chat| - 1;
    var suffix := right.(reasoning := right.reasoning[|left.reasoning|..]);
    ChatPaths(right.key);
    assert left.key == left.(reasoning := "").key == right.(reasoning := "").key == right.key;
    UpsertAt(s.chat, n, suffix);
    hide AppendReasoning, DistinctKeys;
    assert left.reasoning + suffix.reasoning == right.reasoning;
    assert left.(reasoning := right.reasoning) == right;
  }

  lemma ApplyLastText(s: Snapshot, right: ChatEntry)
    requires s.chat != [] && DistinctKeys(s.chat)
    requires Last(s.chat).(text := "") == right.(text := "") && HasPrefix(right.text, Last(s.chat).text)
    ensures var suffix := right.text[|Last(s.chat).text|..];
      ApplyOne(s, Operation(Append, ChatPath(right.key) + "/text", Text(suffix))) == s.(chat := s.chat[|s.chat| - 1 := right])
  {
    hide Tokens;
    var left, n := Last(s.chat), |s.chat| - 1;
    var suffix := right.(text := right.text[|left.text|..]);
    ChatPaths(right.key);
    assert left.key == left.(text := "").key == right.(text := "").key == right.key;
    UpsertAt(s.chat, n, suffix);
    hide AppendText, DistinctKeys;
    assert left.text + suffix.text == right.text;
    assert left.(text := right.text) == right;
  }

  lemma ApplyLastUpsert(s: Snapshot, right: ChatEntry)
    requires s.chat != [] && DistinctKeys(s.chat) && Last(s.chat).key == right.key
    ensures ApplyOne(s, Operation(Upsert, ChatPath(right.key), Entry(right))) == s.(chat := s.chat[|s.chat| - 1 := right])
  {
    hide Tokens;
    ChatPaths(right.key);
    UpsertAt(s.chat, |s.chat| - 1, right);
    hide UpsertEntry, DistinctKeys;
  }

  /** One upsert of a changed entry. */
  lemma ApplyUpsert(s: Snapshot, before: seq<ChatEntry>, after: seq<ChatEntry>, i: nat)
    requires i < |after| && SameKeys(before, after) && DistinctKeys(before)
    requires s.chat == after[..i] + before[i..]
    ensures ApplyOne(s, Operation(Upsert, ChatPath(after[i].key), Entry(after[i]))) == s.(chat := after[..i + 1] + before[i + 1..])
  {
    hide Tokens;
    ChatPaths(after[i].key);
    assert DistinctKeys(s.chat) by {
      assert forall k :: 0 <= k < |after| ==> s.chat[k].key == before[k].key;
    }
    UpsertAt(s.chat, i, after[i]);
    hide UpsertEntry;
    assert s.chat[i := after[i]] == after[..i + 1] + before[i + 1..];
  }

  /** The upserts from position `i` on, when the entries before it are already the new ones. */
  lemma {:induction false} ApplyUpserts(s: Snapshot, before: seq<ChatEntry>, after: seq<ChatEntry>, i: nat)
    requires i <= |after| && SameKeys(before, after) && DistinctKeys(before)
    requires s.chat == after[..i] + before[i..]
    ensures ApplyAll(s, Upserts(before[i..], after[i..])) == s.(chat := after)
    decreases |after| - i
  {
    hide ApplyOne, SameKeys, DistinctKeys, ChatPath;
    assert |before| == |after| by { SameLength(before, after); }
    if i == |after| {
      assert s.chat == after;
    } else {
      assert before[i..][1..] == before[i + 1..] && after[i..][1..] == after[i + 1..];
      var ops := Upserts(before[i + 1..], after[i + 1..]);
      if before[i] == after[i] {
        assert after[..i] + before[i..] == after[..i + 1] + before[i + 1..];
        assert Upserts(before[i..], after[i..]) == [] + ops == ops;
        ApplyUpserts(s, before, after, i + 1);
      } else {
        var op := Operation(Upsert, ChatPath(after[i].key), Entry(after[i]));
        assert Upserts(before[i..], after[i..]) == [op] + ops && ([op] + ops)[1..] == ops;
        ApplyUpsert(s, before, after, i);
        hide Upserts;
        ApplyUpserts(s.(chat := after[..i + 1] + before[i + 1..]), before, after, i + 1);
      }
    }
  }

  lemma SameLength(before: seq<ChatEntry>, after: seq<ChatEntry>)
    requires SameKeys(before, after)
    ensures |before| == |after|
  {
  }

  lemma ApplyChat(s: Snapshot, after: seq<ChatEntry>)
    requires DistinctKeys(s.chat)
    ensures ApplyAll(s, DiffChat(s.chat, after)) == s.(chat := after)
  {
    hide Tokens, Upserts, DiffLast, DistinctKeys;
    var before := s.chat;
    PartPaths();
    if before == after {
    } else if |after| == |before| + 1 && before == after[..|before|] {
      ApplySingle(s, Operation(Append, "/chat", Entry(Last(after))));
      assert before + [Last(after)] == after;
    } else if |after| == |before| && |after| > 0 && Front(before) == Front(after) && Last(before).key == Last(after).key {
      ApplyLast(s, Last(after));
      assert Front(before) + [Last(after)] == after;
    } else if SameKeys(before, after) {
      assert before[0..] == before && after[0..] == after && after[..0] + before[0..] == before;
      ApplyUpserts(s, before, after, 0);
    } else {
      ApplySingle(s, Operation(Replace, "/chat", Chat(after)));
    }
  }

  /** The snapshot has exactly the listed fields and its chat keys are distinct. */
  ghost predicate WellFormed(names: seq<string>, s: Snapshot) {
    s.fields.Keys == (set n | n in names) && DistinctKeys(s.chat)
  }

  /**
    What a patch does to any client whose run, chat and timeline are those of the old snapshot: these
    become the new ones, and of the fields exactly those change that changed in the projection.
   */
  lemma ApplyDiffTo(names: seq<string>, client: Snapshot, before: Snapshot, after: Snapshot)
    requires FieldNames(names) && WellFormed(names, before) && after.fields.Keys == client.fields.Keys == before.fields.Keys
    requires client.run == before.run && client.chat == before.chat && client.timeline == before.timeline
    ensures Apply(client, Diff(names, before, after))
      == after.(fields := Patched(names, client.fields, before.fields, after.fields))
  {
    var run := DiffRun(before.run, after.run);
    var chat := DiffChat(before.chat, after.chat);
    var fields := DiffFields(names, before.fields, after.fields);
    var timeline := DiffTimeline(before.timeline, after.timeline);
    hide DiffRun, DiffChat, DiffFields, DiffTimeline, ApplyAll, Patched;
    ApplyConcat(client, run + chat + fields, timeline);
    ApplyConcat(client, run + chat, fields);
    ApplyConcat(client, run, chat);
    ApplyRun(client, after.run);
    var s1 := client.(run := after.run);
    ApplyChat(s1, after.chat);
    var s2 := s1.(chat := after.chat);
    ApplyFields(names, s2, before.fields, after.fields);
    var s3 := s2.(fields := Patched(names, s2.fields, before.fields, after.fields));
    ApplyTimeline(s3, after.timeline);
  }

  /**
    Main theorem: for all snapshots whose chat keys are distinct, applying the difference to the old
    snapshot gives the new one, across whole-field replacement, appends to the partial text, the
    reasoning and the text of the last entry, chat and timeline appends, and keyed upserts.
   */
  lemma ApplyDiff(names: seq<string>, before: Snapshot, after: Snapshot)
    requires FieldNames(names) && WellFormed(names, before) && after.fields.Keys == before.fields.Keys
    ensures Apply(before, Diff(names, before, after)) == after
  {
    ApplyDiffTo(names, before, before, after);
    assert Patched(names, before.fields, before.fields, after.fields) == after.fields;
  }

  // ----- what is sent while a turn streams ----------------------------------------------------------------

  /** Streaming costs what is new: a grown partial text, a grown last entry, a new entry and a new event are each one append. */
  lemma StreamingIsIncremental(r: Run, chat: seq<ChatEntry>, timeline: seq<Json>, more: string, entry: ChatEntry, event: Json)
    requires more != ""
    ensures DiffRun(r, r.(partial := r.partial + more)) == [Operation(Append, "/run/partial", Text(more))]
    ensures DiffChat(chat, chat + [entry]) == [Operation(Append, "/chat", Entry(entry))]
    ensures DiffTimeline(timeline, timeline + [event]) == [Operation(Append, "/timeline", Item(event))]
    ensures DiffChat(chat + [entry], chat + [entry.(text := entry.text + more)]) == [Operation(Append, ChatPath(entry.key) + "/text", Text(more))]
    ensures DiffChat(chat + [entry], chat + [entry.(reasoning := entry.reasoning + more)]) == [Operation(Append, ChatPath(entry.key) + "/reasoning", Text(more))]
  {
    StreamRun(r, more);
    hide ChatPath;
    assert (chat + [entry])[..|chat|] == chat && (timeline + [event])[..|timeline|] == timeline;
    StreamLast(chat, entry, entry.(text := entry.text + more));
    StreamLast(chat, entry, entry.(reasoning := entry.reasoning + more));
    StreamEntry(entry, more);
  }

  lemma StreamRun(r: Run, more: string)
    requires more != ""
    ensures DiffRun(r, r.(partial := r.partial + more)) == [Operation(Append, "/run/partial", Text(more))]
  {
    var grown := r.partial + more;
    assert |grown| > |r.partial| && grown[|r.partial|..] == more && r.partial <= grown;
  }

  lemma StreamLast(chat: seq<ChatEntry>, left: ChatEntry, right: ChatEntry)
    requires left.key == right.key && left != right
    ensures DiffChat(chat + [left], chat + [right]) == [DiffLast(left, right)]
  {
    var before, after := chat + [left], chat + [right];
    assert before[|chat|] != after[|chat|] && Front(before) == chat && Front(after) == chat;
  }

  lemma StreamEntry(entry: ChatEntry, more: string)
    requires more != ""
    ensures entry.(text := entry.text + more) != entry && entry.(reasoning := entry.reasoning + more) != entry
    ensures DiffLast(entry, entry.(text := entry.text + more)) == Operation(Append, ChatPath(entry.key) + "/text", Text(more))
    ensures DiffLast(entry, entry.(reasoning := entry.reasoning + more)) == Operation(Append, ChatPath(entry.key) + "/reasoning", Text(more))
  {
    hide ChatPath;
    var text, reasoning := entry.text + more, entry.reasoning + more;
    assert |text| > |entry.text| && text[|entry.text|..] == more && entry.text <= text;
    assert |reasoning| > |entry.reasoning| && reasoning[|entry.reasoning|..] == more && entry.reasoning <= reasoning;
    assert entry.(reasoning := "").text != entry.(text := text).(reasoning := "").text;
  }
}
