/**
  The history index over a session's log: where in the file each message was appended, which messages
  were elided or compacted away, and which summary stands for which messages.
 */
module History {
  import opened Prelude

  /** `rest` stands for the parts of a message that the index does not look at. */
  datatype Message = Message(id: string, role: string, content: string, rest: string)

  datatype Event =
    | Appended(message: Message)
    | Updated(id: string, elided: bool)
    | Removed(id: string)
    | Summarized(summary: string, affected: seq<string>)
    | Other(data: string)

  /** How events are written as lines and read back. */
  datatype Codec = Codec(encode: Event -> string, decode: string -> Option<Event>)

  ghost predicate Lawful(codec: Codec) {
    forall e :: codec.decode(codec.encode(e) + "\n") == Some(e)
  }

  /** What is kept of a message: its role and the byte range of its line. */
  datatype Record = Record(role: string, offset: nat, length: nat)

  datatype Index = Index(
    records: map<string, Record>, order: seq<string>, lineage: map<string, seq<string>>, latest: string,
    elided: set<string>, compacted: set<string>)

  const EmptyIndex := Index(map[], [], map[], "", {}, {})

  datatype Log = Log(file: string, index: Index)

  // ----- the index, event by event -----------------------------------------------------------------------------

  function Append(h: Index, message: Message, offset: nat, length: nat): Index {
    if message.id == "" then h
    else h.(order := if message.id in h.records then h.order else h.order + [message.id],
            records := h.records[message.id := Record(message.role, offset, length)])
  }

  function Update(h: Index, id: string, elided: bool): Index {
    if elided then h.(elided := h.elided + {id}) else h
  }

  function Remove(h: Index, id: string): Index {
    if id !in h.records then h
    else h.(records := h.records - {id}, lineage := h.lineage - {id}, elided := h.elided - {id},
            compacted := h.compacted - {id}, order := Filter(h.order, other => other != id))
  }

  function Compact(h: Index, summary: string, affected: seq<string>): Index {
    if summary == "" then h
    else h.(latest := summary, lineage := h.lineage[summary := affected], compacted := h.compacted + (set id | id in affected))
  }

  function RecordEvent(h: Index, e: Event, offset: nat, length: nat): Index {
    match e
    case Appended(message) => Append(h, message, offset, length)
    case Updated(id, elided) => Update(h, id, elided)
    case Removed(id) => Remove(h, id)
    case Summarized(summary, affected) => Compact(h, summary, affected)
    case Other(_) => h
  }

  /** A line is appended to the file and the index is told where it went. */
  function Write(codec: Codec, log: Log, e: Event): Log {
    var line := codec.encode(e) + "\n";
    Log(log.file + line, RecordEvent(log.index, e, |log.file|, |line|))
  }

  /** Read a byte range and decode the message in it. */
  function Read(codec: Codec, file: string, at: Record): Option<Message>
  {
    if at.offset + at.length > |file| then None
    else
      var e := codec.decode(file[at.offset..at.offset + at.length]);
      if e.Some? && e.value.Appended? then Some(e.value.message) else None
  }

  // ----- lineage ---------------------------------------------------------------------------------------------

  /** Each element of the path is listed in the lineage of the one before. */
  ghost predicate Path(lineage: map<string, seq<string>>, path: seq<string>) {
    forall i :: 0 <= i < |path| - 1 ==> path[i + 1] in At(lineage, path[i])
  }

  ghost predicate Reaches(lineage: map<string, seq<string>>, a: string, b: string) {
    exists path :: |path| >= 2 && path[0] == a && path[|path| - 1] == b && Path(lineage, path)
  }

  /** Every id that some summary stands for. */
  ghost function Listed(lineage: map<string, seq<string>>): set<string> {
    set a, id | a in lineage && id in lineage[a] :: id
  }

  ghost function Reachable(lineage: map<string, seq<string>>, root: string): set<string> {
    set id | id in Listed(lineage) && Reaches(lineage, root, id)
  }

  lemma ReachesStep(lineage: map<string, seq<string>>, a: string, b: string)
    requires b in At(lineage, a)
    ensures Reaches(lineage, a, b)
  {
    var path := [a, b];
    assert Path(lineage, path);
  }

  lemma ReachesThrough(lineage: map<string, seq<string>>, a: string, b: string, c: string)
    requires b in At(lineage, a) && Reaches(lineage, b, c)
    ensures Reaches(lineage, a, c)
  {
    var path :| |path| >= 2 && path[0] == b && path[|path| - 1] == c && Path(lineage, path);
    var longer := [a] + path;
    forall i | 0 <= i < |longer| - 1 ensures longer[i + 1] in At(lineage, longer[i]) {
      if i > 0 {
        assert path[i] in At(lineage, path[i - 1]);
      }
    }
    assert Path(lineage, longer);
  }

  /** A set that holds what the root lists and everything its own members list holds all that is reachable. */
  lemma {:induction false} ClosedHoldsPath(lineage: map<string, seq<string>>, path: seq<string>, s: set<string>, n: nat)
    requires 1 <= n < |path| && Path(lineage, path)
    requires forall id :: id in At(lineage, path[0]) ==> id in s
    requires forall x, id :: x in s && id in At(lineage, x) ==> id in s
    ensures path[n] in s
    decreases n
  {
    if n > 1 {
      ClosedHoldsPath(lineage, path, s, n - 1);
    }
    assert path[n - 1 + 1] in At(lineage, path[n - 1]);
  }

  lemma ClosedIsReachable(lineage: map<string, seq<string>>, root: string, s: set<string>)
    requires forall id :: id in At(lineage, root) ==> id in s
    requires forall x, id :: x in s && id in At(lineage, x) ==> id in s
    requires forall id :: id in s ==> id in Listed(lineage) && Reaches(lineage, root, id)
    ensures s == Reachable(lineage, root)
  {
    forall id | Reaches(lineage, root, id) ensures id in s {
      var path :| |path| >= 2 && path[0] == root && path[|path| - 1] == id && Path(lineage, path);
      ClosedHoldsPath(lineage, path, s, |path| - 1);
    }
  }

  /** Walk the lineage, skipping what is already selected; ends on cyclic lineage too. */
  method Walk(lineage: map<string, seq<string>>, parent: string, selected: set<string>) returns (s: set<string>)
    requires selected <= Listed(lineage)
    ensures selected <= s <= Listed(lineage)
    ensures forall id :: id in At(lineage, parent) ==> id in s
    ensures forall id :: id in s && id !in selected ==> Reaches(lineage, parent, id)
    ensures forall x, id :: x in s && x !in selected && id in At(lineage, x) ==> id in s
    decreases Listed(lineage) - selected
  {
    s := selected;
    var children := At(lineage, parent);
    for i := 0 to |children|
      invariant selected <= s <= Listed(lineage)
      invariant forall k :: 0 <= k < i ==> children[k] in s
      invariant forall id :: id in s && id !in selected ==> Reaches(lineage, parent, id)
      invariant forall x, id :: x in s && x !in selected && id in At(lineage, x) ==> id in s
    {
      var child := children[i];
      if child in s {
        continue;
      }
      ReachesStep(lineage, parent, child);
      var before := s + {child};
      var after := Walk(lineage, child, before);
      forall id | id in after && id !in before ensures Reaches(lineage, parent, id) {
        ReachesThrough(lineage, parent, child, id);
      }
      s := after;
    }
  }

  // ----- resolving ---------------------------------------------------------------------------------------------

  datatype Entry = Entry(ref: string, role: string, elided: bool, compacted: bool)

  datatype Lookup = Unavailable | Manifest(root: string, entries: seq<Entry>) | Found(message: Message)

  function Root(h: Index, ref: string): string {
    if ref == "latest" then h.latest else ref
  }

  predicate IsManifest(h: Index, ref: string) {
    ref == "latest" || At(h.lineage, ref) != []
  }

  /** What a manifest is about: everything reachable from its root, and for "latest" all that was elided or compacted. */
  ghost function Selection(h: Index, ref: string): set<string> {
    (if Root(h, ref) == "" then {} else Reachable(h.lineage, Root(h, ref)))
    + (if ref == "latest" then h.elided + h.compacted else {})
  }

  function EntryOf(h: Index, id: string): Entry
    requires id in h.records
  {
    Entry(id, h.records[id].role, id in h.elided, id in h.compacted)
  }

  /** The recorded ids among `ids` that are selected, as entries. */
  function Entries(h: Index, ids: seq<string>, selected: set<string>): seq<Entry> {
    if ids == [] then []
    else
      var id := ids[|ids| - 1];
      Entries(h, ids[..|ids| - 1], selected) + if id in selected && id in h.records then [EntryOf(h, id)] else []
  }

  ghost function Resolve(codec: Codec, log: Log, ref: string): Lookup {
    var h := log.index;
    if IsManifest(h, ref) then
      var entries := Entries(h, h.order, Selection(h, ref));
      if entries == [] then Unavailable else Manifest(Root(h, ref), entries)
    else if ref !in h.records || (ref !in h.elided && ref !in h.compacted) then Unavailable
    else
      var message := Read(codec, log.file, h.records[ref]);
      if message.None? || message.value.id != ref then Unavailable else Found(message.value)
  }
}
