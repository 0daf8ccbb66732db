/**
  What the history index gives after any sequence of events: the body a message was appended with, and
  for a summary the recorded messages it stands for, in the order they were appended.
 */
module HistoryRuns {
  import opened Prelude
  import opened History

  function After(codec: Codec, events: seq<Event>): Log {
    if events == [] then Log("", EmptyIndex)
    else Write(codec, After(codec, events[..|events| - 1]), events[|events| - 1])
  }

  lemma AfterPush(codec: Codec, events: seq<Event>, e: Event)
    ensures After(codec, events + [e]) == Write(codec, After(codec, events), e)
  {
    assert (events + [e])[..|events|] == events;
  }

  predicate Appends(e: Event, id: string) {
    e.Appended? && e.message.id == id && id != ""
  }

  /** The last event that appended this message, unless it was removed since. */
  function BodyAt(events: seq<Event>, id: string): (r: Option<nat>)
    ensures r.Some? ==> r.value < |events| && Appends(events[r.value], id)
  {
    if events == [] then None
    else
      var n := |events| - 1;
      if Appends(events[n], id) then Some(n)
      else if events[n] == Removed(id) then None
      else BodyAt(events[..n], id)
  }

  /** The event that first appended this message since it was last removed. */
  function FirstAt(events: seq<Event>, id: string): (r: Option<nat>)
    ensures r.Some? ==> r.value < |events| && Appends(events[r.value], id)
    ensures r.Some? <==> BodyAt(events, id).Some?
  {
    if events == [] then None
    else
      var n := |events| - 1;
      var before := FirstAt(events[..n], id);
      if Appends(events[n], id) then (if before.Some? then before else Some(n))
      else if events[n] == Removed(id) then None
      else before
  }

  /** The event removes this message from the index: it is recorded at that time. */
  predicate TakesOut(before: seq<Event>, e: Event, id: string) {
    e == Removed(id) && BodyAt(before, id).Some?
  }

  /** Marked as elided by an update, and not taken out since. */
  function ElidedSince(events: seq<Event>, id: string): bool {
    if events == [] then false
    else
      var before, e := events[..|events| - 1], events[|events| - 1];
      e == Updated(id, true) || (ElidedSince(before, id) && !TakesOut(before, e, id))
  }

  /** Affected by a named summary, and not taken out since. */
  function CompactedSince(events: seq<Event>, id: string): bool {
    if events == [] then false
    else
      var before, e := events[..|events| - 1], events[|events| - 1];
      (e.Summarized? && e.summary != "" && id in e.affected) || (CompactedSince(before, id) && !TakesOut(before, e, id))
  }

  predicate Marked(events: seq<Event>, id: string) {
    ElidedSince(events, id) || CompactedSince(events, id)
  }

  /** The last summary with a name, or none. */
  function LatestOf(events: seq<Event>): string {
    if events == [] then ""
    else
      var e := events[|events| - 1];
      if e.Summarized? && e.summary != "" then e.summary else LatestOf(events[..|events| - 1])
  }

  // ----- the byte ranges -------------------------------------------------------------------------------------------

  ghost predicate RecordsOk(codec: Codec, events: seq<Event>) {
    var log := After(codec, events);
    forall id :: if BodyAt(events, id).Some?
      then id in log.index.records && Read(codec, log.file, log.index.records[id]) == Some(events[BodyAt(events, id).value].message)
      else id !in log.index.records
  }

  /** What was read from a file is still read after more is appended. */
  lemma ReadStable(codec: Codec, file: string, more: string, at: Record)
    requires at.offset + at.length <= |file|
    ensures Read(codec, file + more, at) == Read(codec, file, at)
  {
    assert (file + more)[at.offset..at.offset + at.length] == file[at.offset..at.offset + at.length];
  }

  lemma ReadLast(codec: Codec, file: string, e: Event, role: string)
    requires Lawful(codec) && e.Appended?
    ensures var line := codec.encode(e) + "\n"; Read(codec, file + line, Record(role, |file|, |line|)) == Some(e.message)
  {
    var line := codec.encode(e) + "\n";
    assert (file + line)[|file|..|file| + |line|] == line;
  }

  lemma {:induction false} RecordsTracked(codec: Codec, events: seq<Event>)
    requires Lawful(codec)
    ensures RecordsOk(codec, events)
  {
    if events != [] {
      var n := |events| - 1;
      var before, e := events[..n], events[n];
      RecordsTracked(codec, before);
      var was, now := After(codec, before), After(codec, events);
      var line := codec.encode(e) + "\n";
      forall id ensures if BodyAt(events, id).Some?
        then id in now.index.records && Read(codec, now.file, now.index.records[id]) == Some(events[BodyAt(events, id).value].message)
        else id !in now.index.records
      {
        if Appends(e, id) {
          ReadLast(codec, was.file, e, e.message.role);
        } else if e != Removed(id) && BodyAt(before, id).Some? {
          assert now.index.records[id] == was.index.records[id];
          ReadStable(codec, was.file, line, was.index.records[id]);
          assert events[BodyAt(before, id).value] == before[BodyAt(before, id).value];
        }
      }
    }
  }

  lemma {:induction false} MarksTracked(codec: Codec, events: seq<Event>, id: string)
    requires Lawful(codec)
    ensures var h := After(codec, events).index;
      && (id in h.elided <==> ElidedSince(events, id)) && (id in h.compacted <==> CompactedSince(events, id))
      && h.latest == LatestOf(events)
  {
    if events != [] {
      var before := events[..|events| - 1];
      MarksTracked(codec, before, id);
      RecordsTracked(codec, before);
      hide Read, Filter;
    }
  }

  /** The role kept for a message is the role it was appended with. */
  lemma {:induction false} RolesTracked(codec: Codec, events: seq<Event>, id: string)
    requires Lawful(codec) && BodyAt(events, id).Some?
    ensures var h := After(codec, events).index; id in h.records && h.records[id].role == events[BodyAt(events, id).value].message.role
  {
    RecordsTracked(codec, events);
    var n := |events| - 1;
    var before, e := events[..n], events[n];
    if !Appends(e, id) {
      RolesTracked(codec, before, id);
      RecordsTracked(codec, before);
      assert events[BodyAt(before, id).value] == before[BodyAt(before, id).value];
    }
    hide Read, Filter;
  }

  /** What a summary stands for: the ids affected when it was last made, unless it was removed since. */
  function LineageOf(events: seq<Event>, id: string): seq<string> {
    if events == [] then []
    else
      var before, e := events[..|events| - 1], events[|events| - 1];
      if e.Summarized? && e.summary == id && id != "" then e.affected
      else if e == Removed(id) && BodyAt(before, id).Some? then []
      else LineageOf(before, id)
  }

  lemma {:induction false} LineageTracked(codec: Codec, events: seq<Event>, id: string)
    requires Lawful(codec)
    ensures At(After(codec, events).index.lineage, id) == LineageOf(events, id)
  {
    if events != [] {
      var before := events[..|events| - 1];
      LineageTracked(codec, before, id);
      RecordsTracked(codec, before);
    }
  }

  /** The references that are answered with a manifest: "latest", and every summary that stands for something. */
  predicate Manifested(events: seq<Event>, ref: string) {
    ref == "latest" || LineageOf(events, ref) != []
  }

  /**
    After any events, a reference resolves to a message if and only if it does not ask for a manifest
    and that message was appended, not removed since, and elided or compacted; and then to the body it
    was appended with, read back through its recorded byte range.
   */
  lemma ResolvesToOriginal(codec: Codec, events: seq<Event>, ref: string)
    requires Lawful(codec)
    ensures IsManifest(After(codec, events).index, ref) <==> Manifested(events, ref)
    ensures var at := BodyAt(events, ref); var r := Resolve(codec, After(codec, events), ref);
      && (r.Found? <==> !Manifested(events, ref) && at.Some? && Marked(events, ref))
      && (r.Found? ==> r.message == events[at.value].message)
  {
    RecordsTracked(codec, events);
    MarksTracked(codec, events, ref);
    LineageTracked(codec, events, ref);
    hide After, BodyAt, ElidedSince, CompactedSince, LineageOf, Entries, Selection;
  }

  /**
    A summary that a later summary compacts is appended, not removed and compacted, and still its body
    cannot be read back: its reference is answered with its manifest.
   */
  lemma CompactedSummaryIsUnreadable(codec: Codec, first: Message, second: string, id: string)
    requires Lawful(codec) && first.id != "" && second != "" && second != first.id
    ensures var events := [Appended(first), Summarized(first.id, [id]), Summarized(second, [first.id])];
      && BodyAt(events, first.id) == Some(0) && Marked(events, first.id)
      && !Resolve(codec, After(codec, events), first.id).Found?
  {
    var events := [Appended(first), Summarized(first.id, [id]), Summarized(second, [first.id])];
    assert events[..2] == [Appended(first), Summarized(first.id, [id])] && events[..2][..1] == [Appended(first)];
    assert BodyAt(events[..2][..1], first.id) == Some(0);
    assert BodyAt(events[..2], first.id) == Some(0);
    assert LineageOf(events[..2], first.id) == [id];
    assert LineageOf(events, first.id) == [id];
    ResolvesToOriginal(codec, events, first.id);
  }

  // ----- the manifest -----------------------------------------------------------------------------------------------

  /** Where in the log a message was first appended; -1 for one that is not recorded. */
  function Position(events: seq<Event>, id: string): int {
    var at := FirstAt(events, id);
    if at.Some? then at.value else -1
  }

  ghost predicate Ordered(ids: seq<string>, position: string -> int) {
    forall i, j :: 0 <= i < j < |ids| ==> position(ids[i]) < position(ids[j])
  }

  /** The order lists exactly the recorded messages, in the order in which they were first appended. */
  ghost predicate OrderOk(events: seq<Event>, order: seq<string>) {
    && (forall id :: id in order <==> FirstAt(events, id).Some?)
    && Ordered(order, id => Position(events, id))
  }

  lemma {:induction false} FilterOrdered(ids: seq<string>, keep: string -> bool, position: string -> int)
    requires Ordered(ids, position)
    ensures Ordered(Filter(ids, keep), position)
  {
    if ids != [] {
      var rest := ids[1..];
      FilterOrdered(rest, keep, position);
      FilterMembers(rest, keep);
      var kept := Filter(rest, keep);
      forall j | 0 <= j < |kept| ensures position(ids[0]) < position(kept[j]) {
        assert kept[j] in kept;
        var k :| 0 <= k < |rest| && rest[k] == kept[j];
        assert ids[k + 1] == rest[k];
      }
    }
  }

  /** Positions that agree on the listed ids order them alike. */
  lemma OrderedAgree(ids: seq<string>, p: string -> int, q: string -> int)
    requires Ordered(ids, p) && forall id :: id in ids ==> p(id) == q(id)
    ensures Ordered(ids, q)
  {
    forall i, j | 0 <= i < j < |ids| ensures q(ids[i]) < q(ids[j]) {
      assert ids[i] in ids && ids[j] in ids;
    }
  }

  lemma {:induction false} OrderTracked(codec: Codec, events: seq<Event>)
    requires Lawful(codec)
    ensures OrderOk(events, After(codec, events).index.order)
  {
    if events != [] {
      var n := |events| - 1;
      var before, e := events[..n], events[n];
      OrderTracked(codec, before);
      RecordsTracked(codec, before);
      var h := After(codec, before).index;
      OrderStep(before, e, h);
      assert before + [e] == events;
    }
  }

  lemma FirstStep(before: seq<Event>, e: Event, id: string)
    ensures FirstAt(before + [e], id) ==
      if Appends(e, id) && FirstAt(before, id).None? then Some(|before|)
      else if e == Removed(id) then None
      else FirstAt(before, id)
  {
    assert (before + [e])[..|before|] == before;
  }

  /** The position of every message after one more event. */
  ghost predicate Moved(before: seq<Event>, e: Event) {
    forall id :: FirstAt(before + [e], id) ==
      if Appends(e, id) && FirstAt(before, id).None? then Some(|before|)
      else if e == Removed(id) then None
      else FirstAt(before, id)
  }

  lemma RemoveOrder(before: seq<Event>, e: Event, order: seq<string>)
    requires OrderOk(before, order) && e.Removed? && Moved(before, e)
    ensures OrderOk(before + [e], Filter(order, other => other != e.id))
  {
    hide FirstAt, Ordered;
    var events := before + [e];
    var p, q := id => Position(before, id), id => Position(events, id);
    var keep := (other: string) => other != e.id;
    FilterMembers(order, keep);
    FilterOrdered(order, keep, p);
    OrderedAgree(Filter(order, keep), p, q);
  }

  lemma SameOrder(before: seq<Event>, e: Event, order: seq<string>)
    requires OrderOk(before, order) && Moved(before, e)
    requires e.Removed? ==> e.id !in order
    ensures OrderOk(before + [e],
      if e.Appended? && e.message.id != "" && e.message.id !in order then order + [e.message.id] else order)
  {
    hide FirstAt, Ordered;
    var events := before + [e];
    var p, q := id => Position(before, id), id => Position(events, id);
    OrderedAgree(order, p, q);
    if e.Appended? && e.message.id != "" && e.message.id !in order {
      OrderedPush(order, e.message.id, q, |before|);
    }
  }

  lemma OrderStep(before: seq<Event>, e: Event, h: Index)
    requires OrderOk(before, h.order)
    requires forall id :: id in h.records <==> FirstAt(before, id).Some?
    ensures OrderOk(before + [e], RecordEvent(h, e, 0, 0).order)
  {
    hide FirstAt, Ordered;
    assert Moved(before, e) by {
      forall id { FirstStep(before, e, id); }
    }
    hide Moved;
    if e.Removed? && e.id in h.records {
      RemoveOrder(before, e, h.order);
    } else {
      SameOrder(before, e, h.order);
    }
  }

  lemma OrderedPush(ids: seq<string>, id: string, position: string -> int, n: int)
    requires Ordered(ids, position) && position(id) == n && forall other :: other in ids ==> position(other) < n
    ensures Ordered(ids + [id], position)
  {
  }

  function Refs(entries: seq<Entry>): (refs: seq<string>)
    ensures |refs| == |entries| && forall i :: 0 <= i < |refs| ==> refs[i] == entries[i].ref
  {
    seq(|entries|, i requires 0 <= i < |entries| => entries[i].ref)
  }

  lemma {:induction false} EntriesAre(h: Index, ids: seq<string>, selected: set<string>)
    ensures Refs(Entries(h, ids, selected)) == Filter(ids, id => id in selected && id in h.records)
    ensures forall i :: 0 <= i < |Entries(h, ids, selected)| ==>
      var entry := Entries(h, ids, selected)[i]; entry.ref in h.records && entry == EntryOf(h, entry.ref)
  {
    if ids != [] {
      var keep := id => id in selected && id in h.records;
      var front, last := ids[..|ids| - 1], ids[|ids| - 1];
      EntriesAre(h, front, selected);
      assert ids == front + [last];
      FilterConcat(front, [last], keep);
      assert Filter([last], keep) == if keep(last) then [last] else [];
    }
  }

  /** An entry of a manifest, by the events: the role the message was appended with, and whether it was elided and compacted since. */
  ghost predicate EntryTells(events: seq<Event>, entry: Entry) {
    && BodyAt(events, entry.ref).Some?
    && entry.role == events[BodyAt(events, entry.ref).value].message.role
    && (entry.elided <==> ElidedSince(events, entry.ref))
    && (entry.compacted <==> CompactedSince(events, entry.ref))
  }

  lemma EntryOfTells(codec: Codec, events: seq<Event>, id: string)
    requires Lawful(codec) && id in After(codec, events).index.records
    ensures EntryTells(events, EntryOf(After(codec, events).index, id))
  {
    RecordsTracked(codec, events);
    hide After;
    assert BodyAt(events, id).Some?;
    RolesTracked(codec, events, id);
    MarksTracked(codec, events, id);
  }

  /**
    A manifest lists exactly the recorded messages it is about, each once, in the order in which they were
    appended, with their role and flags as the events tell them; it is unavailable if and only if there are
    none.  Its root is the summary asked for, or the last summary made.
   */
  lemma ManifestLists(codec: Codec, events: seq<Event>, ref: string)
    requires Lawful(codec) && Manifested(events, ref)
    ensures var h := After(codec, events).index; var r := Resolve(codec, After(codec, events), ref);
      var entries := if r.Manifest? then r.entries else [];
      && !r.Found? && (r.Manifest? ==> r.root == (if ref == "latest" then LatestOf(events) else ref) && r.entries != [])
      && (forall id :: id in Refs(entries) <==> id in Selection(h, ref) && BodyAt(events, id).Some?)
      && Ordered(Refs(entries), id => Position(events, id))
      && (forall i :: 0 <= i < |entries| ==> EntryTells(events, entries[i]))
  {
    var h := After(codec, events).index;
    RecordsTracked(codec, events);
    OrderTracked(codec, events);
    MarksTracked(codec, events, ref);
    ResolvesToOriginal(codec, events, ref);
    var selected := Selection(h, ref);
    var keep := id => id in selected && id in h.records;
    EntriesAre(h, h.order, selected);
    FilterMembers(h.order, keep);
    FilterOrdered(h.order, keep, id => Position(events, id));
    var entries := Entries(h, h.order, selected);
    hide After, Resolve, Entries, Selection, RecordsOk, EntryTells, BodyAt, LatestOf;
    forall i | 0 <= i < |entries| ensures EntryTells(events, entries[i]) {
      EntryOfTells(codec, events, entries[i].ref);
    }
    ManifestIs(codec, After(codec, events), ref);
  }

  lemma ManifestIs(codec: Codec, log: Log, ref: string)
    requires IsManifest(log.index, ref)
    ensures var entries := Entries(log.index, log.index.order, Selection(log.index, ref));
      Resolve(codec, log, ref) == if entries == [] then Unavailable else Manifest(Root(log.index, ref), entries)
  {
  }

  /** What a summary's manifest is about: the ids reachable through recorded lineage, however it loops. */
  lemma SummarySelects(codec: Codec, events: seq<Event>, ref: string, id: string)
    requires Lawful(codec) && ref != "latest" && IsManifest(After(codec, events).index, ref)
    ensures id in Selection(After(codec, events).index, ref) <==> Reaches(After(codec, events).index.lineage, ref, id)
  {
    var h := After(codec, events).index;
    NamedSummaries(codec, events);
    if Reaches(h.lineage, ref, id) {
      var path :| |path| >= 2 && path[0] == ref && path[|path| - 1] == id && Path(h.lineage, path);
      assert path[|path| - 2 + 1] in At(h.lineage, path[|path| - 2]);
    }
  }

  lemma {:induction false} NamedSummaries(codec: Codec, events: seq<Event>)
    ensures "" !in After(codec, events).index.lineage
  {
    if events != [] {
      NamedSummaries(codec, events[..|events| - 1]);
    }
  }

  /** What "latest" is about: the ids reachable from the last summary made, and all that is elided or compacted. */
  lemma LatestSelects(codec: Codec, events: seq<Event>, id: string)
    requires Lawful(codec)
    ensures var h := After(codec, events).index;
      id in Selection(h, "latest") <==> (LatestOf(events) != "" && Reaches(h.lineage, LatestOf(events), id)) || Marked(events, id)
  {
    var h := After(codec, events).index;
    MarksTracked(codec, events, id);
    if Reaches(h.lineage, h.latest, id) {
      var path :| |path| >= 2 && path[0] == h.latest && path[|path| - 1] == id && Path(h.lineage, path);
      assert path[|path| - 2 + 1] in At(h.lineage, path[|path| - 2]);
    }
    hide After, ElidedSince, CompactedSince, LatestOf;
  }
}
