/**
  The writer of a session's log together with its history index.  The object is always where the events
  written so far have brought it, so what is proved of every sequence of events holds of it.
 */
module HistoryLog {
  import opened Prelude
  import opened History
  import opened HistoryRuns

  /** The session's writer: the file it appends to and the index it keeps. */
  class SessionLog {
    const codec: Codec
    var file: string
    var records: map<string, Record>
    var order: seq<string>
    var lineage: map<string, seq<string>>
    var latest: string
    var elided: set<string>
    var compacted: set<string>
    ghost var events: seq<Event>  // everything written so far

    ghost function View(): Log
      reads this
    {
      Log(file, Index(records, order, lineage, latest, elided, compacted))
    }

    /** The object is where its events have brought it. */
    ghost predicate Valid()
      reads this
    {
      Lawful(codec) && View() == After(codec, events)
    }

    constructor (codec: Codec)
      requires Lawful(codec)
      ensures this.codec == codec && Valid() && events == []
    {
      this.codec := codec;
      events := [];
      file, records, order, lineage, latest, elided, compacted := "", map[], [], map[], "", {}, {};
    }

    /** Append the line and tell the index where it went; the cursor is the boundary just behind it. */
    method WriteRecord(e: Event) returns (cursor: nat)
      requires Valid()
      modifies this
      ensures Valid() && events == old(events) + [e]
      ensures cursor == |file| && file == old(file) + codec.encode(e) + "\n"
    {
      hide After, Lawful, RecordEvent;
      var offset := |file|;
      var line := codec.encode(e) + "\n";
      file := file + line;
      cursor := offset + |line|;
      RecordInIndex(e, offset, |line|);
      AfterPush(codec, events, e);
      events := events + [e];
    }

    method RecordInIndex(e: Event, offset: nat, length: nat)
      modifies this`records, this`order, this`lineage, this`latest, this`elided, this`compacted
      ensures View() == Log(file, RecordEvent(old(View()).index, e, offset, length))
    {
      match e
      case Appended(message) =>
        if message.id != "" {
          if message.id !in records {
            order := order + [message.id];
          }
          records := records[message.id := Record(message.role, offset, length)];
        }
      case Updated(id, flag) =>
        if flag {
          elided := elided + {id};
        }
      case Removed(id) => RemoveMessage(id);
      case Summarized(summary, affected) =>
        if summary != "" {
          latest, lineage := summary, lineage[summary := affected];
          MarkCompacted(affected);
        }
      case Other(_) =>
    }

    method RemoveMessage(id: string)
      modifies this`records, this`order, this`lineage, this`latest, this`elided, this`compacted
      ensures View() == Log(file, Remove(old(View()).index, id))
    {
      if id !in records {
        return;
      }
      records, lineage, elided, compacted := records - {id}, lineage - {id}, elided - {id}, compacted - {id};
      ghost var keep := (other: string) => other != id;
      var kept, ids := [], order;
      for i := 0 to |ids|
        invariant View() == Log(file, Index(records, ids, lineage, latest, elided, compacted))
        invariant records == old(records) - {id} && lineage == old(lineage) - {id}
        invariant latest == old(latest) && elided == old(elided) - {id} && compacted == old(compacted) - {id}
        invariant kept == Filter(ids[..i], keep)
      {
        assert ids[..i + 1] == ids[..i] + [ids[i]];
        FilterConcat(ids[..i], [ids[i]], keep);
        assert Filter([ids[i]], keep) == if ids[i] != id then [ids[i]] else [];
        if ids[i] != id {
          kept := kept + [ids[i]];
        }
      }
      assert ids[..|ids|] == ids;
      FilterAgree(ids, keep, (other: string) => other != id);
      order := kept;
    }

    method MarkCompacted(affected: seq<string>)
      modifies this`compacted
      ensures compacted == old(compacted) + (set id | id in affected)
    {
      for i := 0 to |affected|
        invariant compacted == old(compacted) + (set id | id in affected[..i])
      {
        compacted := compacted + {affected[i]};
        assert affected[..i + 1] == affected[..i] + [affected[i]];
      }
      assert affected[..|affected|] == affected;
    }

    /** Look up a reference: a manifest for a summary or "latest", otherwise the message as it was appended. */
    method ResolveHistory(ref: string) returns (r: Lookup)
      requires Valid()
      ensures r.Found? <==> !Manifested(events, ref) && BodyAt(events, ref).Some? && Marked(events, ref)
      ensures r.Found? ==> r.message == events[BodyAt(events, ref).value].message
      ensures r.Manifest? ==> forall i :: 0 <= i < |r.entries| ==> EntryTells(events, r.entries[i])
      ensures r == Resolve(codec, View(), ref)
    {
      ResolvesToOriginal(codec, events, ref);
      if Manifested(events, ref) {
        ManifestLists(codec, events, ref);
      }
      hide After, Resolve, BodyAt, Marked, EntryTells, LineageOf, Ordered, Selection;
      r := LookUp(ref);
    }

    /** The index answers manifests; a message is read back through its recorded byte range. */
    method LookUp(ref: string) returns (r: Lookup)
      ensures r == Resolve(codec, View(), ref)
    {
      var h := Index(records, order, lineage, latest, elided, compacted);
      if ref == "latest" || At(lineage, ref) != [] {
        var root := if ref == "latest" then latest else ref;
        var selected := {};
        if root != "" {
          selected := Walk(lineage, root, {});
          ClosedIsReachable(lineage, root, selected);
        }
        if ref == "latest" {
          selected := selected + compacted + elided;
        }
        assert selected == Selection(h, ref);
        var entries := [];
        for i := 0 to |order|
          invariant entries == Entries(h, order[..i], selected)
        {
          assert order[..i + 1][..i] == order[..i];
          if order[i] in selected && order[i] in records {
            entries := entries + [EntryOf(h, order[i])];
          }
        }
        assert order[..|order|] == order;
        return if entries == [] then Unavailable else Manifest(root, entries);
      }
      if ref !in records || (ref !in elided && ref !in compacted) {
        return Unavailable;
      }
      var message := Read(codec, file, records[ref]);
      if message.None? || message.value.id != ref {
        return Unavailable;
      }
      return Found(message.value);
    }
  }
}
