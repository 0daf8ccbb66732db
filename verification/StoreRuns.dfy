/**
  Whole runs of the store: records are written, applied in order, captured by readers at any boundary,
  and delivered to clients.  In every run what the store holds, caches, sends and what a client has
  made of it are projections of the log from scratch.
 */
module StoreRuns {
  import opened Prelude
  import opened Patch
  import opened Store

  /** `durable` records are in the log, `applied` of them have come through the event bus. */
  datatype State = State(durable: nat, applied: nat, slot: Slot, copies: map<nat, Snapshot>)

  /** `captured` counts records: a reader captures a record boundary that was durable at some time. */
  datatype Step =
    | Write
    | Publish
    | Mark(reason: string)
    | Take(captured: nat)
    | Subscribe(captured: nat)
    | Join  // a client subscribes whose captured sources do not list this session
    | Resync(id: nat, captured: nat)
    | Receive(id: nat)
    | Close(id: nat)

  const Initial := State(0, 0, NewSlot, map[])

  /** A client applies a patch only when its copy stands at the patch's previous cursor. */
  function Deliver(copies: map<nat, Snapshot>, id: nat, patch: Patch): map<nat, Snapshot> {
    if id in copies && copies[id].cursor == patch.previous then copies[id := Apply(copies[id], patch)] else copies
  }

  predicate Enabled(w: World, s: State, step: Step) {
    match step
    case Write => s.durable < |w.lines|
    case Publish => s.applied < s.durable
    case Mark(_) => true
    case Take(captured) => captured <= s.durable
    case Subscribe(captured) => captured <= s.durable
    case Join => true
    case Resync(id, captured) => captured <= s.durable && id in s.slot.buffers
    case Receive(id) => id in s.slot.buffers && s.slot.buffers[id] != []
    case Close(id) => true
  }

  function Next(w: World, s: State, step: Step): State
    requires s.applied <= s.durable <= |w.lines| && Usable(w, s.slot) && Enabled(w, s, step)
  {
    match step
    case Write => s.(durable := s.durable + 1)
    case Publish => s.(applied := s.applied + 1, slot := ApplyRecord(w, s.slot, s.applied))
    case Mark(reason) => s.(slot := MarkStale(s.slot, reason))
    case Take(captured) => s.(slot := TakeSnapshot(w, s.durable, s.slot, Offset(w, captured)).0)
    case Subscribe(captured) =>
      var (slot, value) := SubscribeSnapshot(w, s.durable, s.slot, Offset(w, captured));
      s.(slot := slot, copies := if value.Some? then s.copies[s.slot.next := value.value] else s.copies)
    case Join => s.(slot := Register(s.slot))
    case Resync(id, captured) =>
      var (slot, value) := TakeSnapshot(w, s.durable, s.slot, Offset(w, captured));
      s.(slot := slot, copies := if value.Some? then s.copies[id := value.value] else s.copies)
    case Receive(id) =>
      var buffer := s.slot.buffers[id];
      s.(slot := s.slot.(buffers := s.slot.buffers[id := buffer[1..]]), copies := Deliver(s.copies, id, buffer[0]))
    case Close(id) => s.(slot := Unsubscribe(s.slot, id))
  }

  // ----- what every run keeps -------------------------------------------------------------------------

  /** `s` is the projection through the first `k` records, up to the two stale fields. */
  ghost predicate Matches(w: World, s: Snapshot, k: nat) {
    k <= |w.lines| && s.cursor == CursorAt(w, k) && WellFormed(w.names, s) && Clear(s) == Clear(Projection(w, k))
  }

  /**
    The patch leads to the projection through `k` records: from the projection one record before,
    whatever its stale fields, or else from the empty snapshot.
   */
  ghost predicate LeadsTo(w: World, patch: Patch, k: nat) {
    && 0 < k <= |w.lines| && patch.cursor == CursorAt(w, k)
    && ( || (patch.previous == CursorAt(w, k - 1) && forall s :: Matches(w, s, k - 1) ==> Matches(w, Apply(s, patch), k))
         || (patch.previous == w.empty.cursor && Matches(w, Apply(w.empty, patch), k)))
  }

  ghost predicate SourceOk(w: World, s: State) {
    match s.slot.source
    case None => s.applied == 0
    case Some(o) => exists m :: s.applied <= m <= s.durable && m <= |w.lines| && o == Offset(w, m)
  }

  /** The store's snapshot is a projection and is not behind the records applied so far. */
  ghost predicate LiveOk(w: World, s: State) {
    s.slot.live.Some? ==> exists k :: s.applied <= k <= s.durable && Matches(w, s.slot.live.value, k)
  }

  ghost predicate CacheOk(w: World, s: State) {
    forall o :: o in s.slot.cache ==> exists m :: 0 <= m <= s.durable && m <= |w.lines| && o == Offset(w, m) && s.slot.cache[o] == Projection(w, m)
  }

  ghost predicate PatchOk(w: World, patch: Patch, applied: nat) {
    exists k :: 0 < k <= applied && LeadsTo(w, patch, k)
  }

  ghost predicate BuffersOk(w: World, s: State) {
    forall id, i :: id in s.slot.buffers && 0 <= i < |s.slot.buffers[id]| ==> PatchOk(w, s.slot.buffers[id][i], s.applied)
  }

  ghost predicate CopyOk(w: World, copy: Snapshot, durable: nat) {
    exists k :: 0 <= k <= durable && Matches(w, copy, k)
  }

  ghost predicate CopiesOk(w: World, s: State) {
    forall id :: id in s.copies ==> id in s.slot.buffers && CopyOk(w, s.copies[id], s.durable)
  }

  ghost predicate Valid(w: World, s: State) {
    && s.applied <= s.durable <= |w.lines| && Usable(w, s.slot)
    && SourceOk(w, s) && LiveOk(w, s) && CacheOk(w, s) && BuffersOk(w, s) && CopiesOk(w, s)
  }

  // ----- projections -----------------------------------------------------------------------------------

  lemma ProjectionMatches(w: World, k: nat)
    requires Lawful(w) && k <= |w.lines|
    ensures Matches(w, Projection(w, k), k)
  {
    assert KeepsForm(w, k);
    ProjectionCursor(w, k);
  }

  lemma ProjectionCursor(w: World, k: nat)
    requires k <= |w.lines|
    ensures Projection(w, k).cursor == CursorAt(w, k)
  {
  }

  lemma FlaggedMatches(w: World, s: Snapshot, k: nat, stale: string, reason: string)
    requires Lawful(w) && Matches(w, s, k)
    ensures Matches(w, Flagged(s, stale, reason), k)
  {
    ClearKeepsForm(w.names, s, stale, reason);
    assert Clear(Flagged(s, stale, reason)).fields == Clear(s).fields;
  }

  /** A snapshot that is a projection once its stale fields are reset has the projection's form. */
  lemma ClearedMatches(w: World, s: Snapshot, k: nat)
    requires Lawful(w) && k <= |w.lines| && Clear(s) == Clear(Projection(w, k))
    ensures Matches(w, Clear(s), k)
  {
    ClearTwice(s);
    ClearTwice(Projection(w, k));
    ProjectionMatches(w, k);
    var p := Projection(w, k);
    hide Projection, Offset;
    assert Clear(s).fields.Keys == Clear(p).fields.Keys == p.fields.Keys;
    assert Clear(s).chat == Clear(p).chat == p.chat;
  }

  /** Folding one record into any state that matches gives the next projection. */
  lemma RefreshedMatches(w: World, s: Snapshot, k: nat)
    requires Lawful(w) && k < |w.lines| && Matches(w, s, k)
    ensures Matches(w, Refreshed(w, s, k), k + 1)
  {
    assert StaleBlind(w, s, k);
    hide Lawful, Projection, Clear, WellFormed, Advance, Offset;
    ClearedMatches(w, Advance(w, s, k), k + 1);
  }

  lemma ClearTwice(s: Snapshot)
    ensures Clear(Clear(s)) == Clear(s) && Clear(s).cursor == s.cursor
  {
    assert Clear(Clear(s)).fields == Clear(s).fields;
  }

  lemma ClearCursor(s: Snapshot, c: Cursor)
    ensures Clear(s.(cursor := c)) == Clear(s).(cursor := c)
  {
  }

  /** A created record brings the empty snapshot to the projection, wherever in the log it stands. */
  lemma CreatedMatches(w: World, k: nat)
    requires Lawful(w) && k < |w.lines| && w.created(w.lines[k].event)
    ensures Matches(w, Refreshed(w, w.empty, k), k + 1)
  {
    assert StartsAfresh(w, k);
    hide Lawful, Projection, Clear, WellFormed, Advance, Offset;
    ClearedMatches(w, Advance(w, w.empty, k), k + 1);
  }

  /** Patching the fields of a client that differs only in its stale fields. */
  lemma PatchedFields(names: seq<string>, client: Snapshot, before: Snapshot, after: Snapshot)
    requires WellFormed(names, client) && WellFormed(names, before) && WellFormed(names, after) && StaleName in names && ReasonName in names
    requires Clear(client) == Clear(before)
    ensures var patched := after.(fields := Patched(names, client.fields, before.fields, after.fields));
      WellFormed(names, patched) && Clear(patched) == Clear(after)
  {
    hide DistinctKeys;
    var fields := Patched(names, client.fields, before.fields, after.fields);
    forall n | n in fields && n != StaleName && n != ReasonName ensures fields[n] == after.fields[n] {
      assert client.fields[n] == Clear(client).fields[n];
      assert before.fields[n] == Clear(before).fields[n];
    }
    assert Clear(after.(fields := fields)).fields == Clear(after).fields;
  }

  /** The patch between a state and the next one works for every client at the same projection. */
  lemma PatchForEveryClient(w: World, before: Snapshot, after: Snapshot, client: Snapshot, k: nat)
    requires Lawful(w) && Matches(w, before, k) && Matches(w, after, k + 1) && Matches(w, client, k)
    ensures Matches(w, Apply(client, Diff(w.names, before, after)), k + 1)
  {
    assert FieldNames(w.names) && StaleName in w.names && ReasonName in w.names;
    hide Apply, Diff, Projection, Lawful, Offset, Patched, DistinctKeys;
    assert client.run == Clear(client).run && client.chat == Clear(client).chat && client.timeline == Clear(client).timeline;
    ApplyDiffTo(w.names, client, before, after);
    PatchedFields(w.names, client, before, after);
    hide Clear, WellFormed;
  }

  /** The patch for record `k`, made from the snapshot before it. */
  ghost function PatchFrom(w: World, before: Snapshot, k: nat): Patch
    requires k < |w.lines|
  {
    Diff(w.names, before, Refreshed(w, before, k))
  }

  ghost function Before(w: World, slot: Slot): Snapshot {
    if slot.live.Some? then slot.live.value else w.empty
  }

  lemma PatchLeads(w: World, before: Snapshot, k: nat)
    requires Lawful(w) && k < |w.lines| && Matches(w, before, k)
    ensures LeadsTo(w, PatchFrom(w, before, k), k + 1)
  {
    RefreshedMatches(w, before, k);
    var after := Refreshed(w, before, k);
    var patch := Diff(w.names, before, after);
    hide Refreshed, Apply, Diff;
    forall s | Matches(w, s, k) ensures Matches(w, Apply(s, patch), k + 1) {
      PatchForEveryClient(w, before, after, s, k);
    }
    DiffCursors(w.names, before, after);
  }

  lemma DiffCursors(names: seq<string>, before: Snapshot, after: Snapshot)
    ensures Diff(names, before, after).previous == before.cursor && Diff(names, before, after).cursor == after.cursor
  {
  }

  lemma FirstPatchLeads(w: World, k: nat)
    requires Lawful(w) && k < |w.lines| && w.created(w.lines[k].event)
    ensures LeadsTo(w, PatchFrom(w, w.empty, k), k + 1)
  {
    CreatedMatches(w, k);
    var after := Refreshed(w, w.empty, k);
    hide Refreshed, Apply, Diff;
    DiffCursors(w.names, w.empty, after);
    ApplyDiff(w.names, w.empty, after);
  }

  // ----- the steps ----------------------------------------------------------------------------------------

  lemma ApplyKeepsSlot(w: World, s: State)
    requires Valid(w, s) && s.applied < s.durable
    ensures var t := Next(w, s, Publish); Usable(w, t.slot) && SourceOk(w, t) && LiveOk(w, t) && CacheOk(w, t) && CopiesOk(w, t)
  {
    hide Apply, Diff, Projection, Refreshed;
    var k := s.applied;
    var t := Next(w, s, Publish);
    assert t.slot.source == Some(Offset(w, k + 1));
    if s.slot.live.Some? {
      var before := s.slot.live.value;
      var m :| k <= m <= s.durable && Matches(w, before, m);
      OffsetOrder(w, m, k + 1);
      if m == k {
        RefreshedMatches(w, before, k);
        assert t.slot.live == Some(Refreshed(w, before, k));
      } else {
        assert t.slot.live == s.slot.live;
      }
    } else if s.slot.subscribers != {} && w.created(w.lines[k].event) {
      CreatedMatches(w, k);
      assert t.slot.live == Some(Refreshed(w, w.empty, k));
    }
  }

  /** The patches buffered after a record: those already there, and at most the one that leads to it. */
  lemma ApplyKeepsBuffers(w: World, s: State)
    requires Valid(w, s) && s.applied < s.durable
    ensures BuffersOk(w, Next(w, s, Publish))
  {
    hide Apply, Diff, Projection, Refreshed, Offset, LeadsTo;
    var k := s.applied;
    var t := Next(w, s, Publish);
    var patch := PatchFrom(w, Before(w, s.slot), k);
    ApplySends(w, s);
    if t.slot.live != s.slot.live {
      LivePatch(w, s);
      assert PatchOk(w, patch, t.applied);
    }
    forall id, i | id in t.slot.buffers && 0 <= i < |t.slot.buffers[id]| ensures PatchOk(w, t.slot.buffers[id][i], t.applied) {
      if i < |s.slot.buffers[id]| {
        assert t.slot.buffers[id][i] == s.slot.buffers[id][i];
        var j :| 0 < j <= s.applied && LeadsTo(w, s.slot.buffers[id][i], j);
      }
    }
  }

  /** A record that changes the store's snapshot is sent to the subscribers; one that does not is not. */
  lemma ApplySends(w: World, s: State)
    requires Valid(w, s) && s.applied < s.durable
    ensures var slot := s.slot; var t := ApplyRecord(w, slot, s.applied);
      if t.live == slot.live then t.buffers == slot.buffers && t.subscribers == slot.subscribers
      else
        && t.buffers == Sent(slot.subscribers, slot.buffers, PatchFrom(w, Before(w, slot), s.applied))
        && t.subscribers == Roomy(slot.subscribers, slot.buffers)
        && t.live == Some(Refreshed(w, Before(w, slot), s.applied))
  {
    var slot := s.slot;
    if slot.live.Some? {
      var k :| s.applied <= k <= s.durable && Matches(w, slot.live.value, k);
    }
    assert Refreshed(w, Before(w, slot), s.applied).cursor == CursorAt(w, s.applied + 1);
    hide Sent, Roomy, Diff, Projection, Lawful, WellFormed, Refreshed, Matches, SourceOk, LiveOk, CacheOk, BuffersOk, CopiesOk;
  }

  lemma LivePatch(w: World, s: State)
    requires Valid(w, s) && s.applied < s.durable && Next(w, s, Publish).slot.live != s.slot.live
    ensures LeadsTo(w, PatchFrom(w, Before(w, s.slot), s.applied), s.applied + 1)
  {
    hide Apply, Diff, Projection, Refreshed, LeadsTo;
    if s.slot.live.Some? {
      var k :| s.applied <= k <= s.durable && Matches(w, s.slot.live.value, k);
      OffsetOrder(w, k, s.applied + 1);
      PatchLeads(w, s.slot.live.value, s.applied);
    } else {
      FirstPatchLeads(w, s.applied);
    }
  }

  /**
    A session that no reader asked for yet becomes known to the store exactly with its session.created
    record and only if somebody is subscribed; every subscriber with room is then sent the patch that leads
    from the empty snapshot to it.
   */
  lemma FirstRecordMeans(w: World, s: State)
    requires Valid(w, s) && s.applied < s.durable && s.slot.live.None?
    ensures var t := Next(w, s, Publish); var k := s.applied;
      if s.slot.subscribers != {} && w.created(w.lines[k].event) then
        && t.slot.live.Some? && Matches(w, t.slot.live.value, k + 1)
        && PatchFrom(w, w.empty, k).previous == w.empty.cursor && LeadsTo(w, PatchFrom(w, w.empty, k), k + 1)
        && t.slot.buffers == Sent(s.slot.subscribers, s.slot.buffers, PatchFrom(w, w.empty, k))
      else t.slot == s.slot.(source := Some(Offset(w, k + 1)))
  {
    var k := s.applied;
    assert w.generation != "" && w.empty.cursor.generation == "" by { LawfulOf(w, s.slot); EmptyCursor(w); }
    ApplySends(w, s);
    if w.created(w.lines[k].event) {
      CreatedMatches(w, k);
      FirstPatchLeads(w, k);
      DiffCursors(w.names, w.empty, Refreshed(w, w.empty, k));
    }
    hide Lawful, WellFormed, Matches, LeadsTo, Diff, Sent, Roomy, Refreshed, Projection, SourceOk, LiveOk, CacheOk, BuffersOk, CopiesOk;
  }

  /** The boundary a snapshot is taken at: the larger of the known and the captured one. */
  ghost function Target(w: World, s: State, captured: nat): (m: nat)
    requires Valid(w, s) && captured <= s.durable
    ensures s.applied <= m <= s.durable && captured <= m
    ensures Capture(s.slot, Offset(w, captured)).source == Some(Offset(w, m))
  {
    if s.slot.source.None? then captured
    else
      var m :| s.applied <= m <= s.durable && m <= |w.lines| && s.slot.source.value == Offset(w, m);
      OffsetOrder(w, m, captured);
      if m < captured then captured else m
  }

  /** A lookup at a durable boundary gives the projection there, from the cache or from the log. */
  lemma LookupProjects(w: World, s: State, m: nat)
    requires Valid(w, s) && m <= s.durable
    ensures var (value, cache) := Lookup(w, s.durable, s.slot.cache, Offset(w, m));
      && value == Some(Projection(w, if m == 0 then s.durable else m))
      && CacheOk(w, s.(slot := s.slot.(cache := cache)))
  {
    assert Readable(w, |w.lines|) by { LawfulOf(w, s.slot); }
    hide Usable, SourceOk, LiveOk, BuffersOk, CopiesOk, Lawful;
    var k := if m == 0 then s.durable else m;
    OffsetOrder(w, 0, m);
    var key := CacheKey(w, s.durable, Offset(w, m));
    assert key == Offset(w, k);
    if key in s.slot.cache {
      var n :| 0 <= n <= s.durable && n <= |w.lines| && key == Offset(w, n) && s.slot.cache[key] == Projection(w, n);
      OffsetOrder(w, n, k);
    } else {
      OffsetOrder(w, 0, k);
      var b := Boundary(w, s.durable, key);
      assert b.Some?;
      OffsetOrder(w, b.value, k);
    }
  }

  /**
    A reader who captured a durable boundary is never refused, and gets the projection through a boundary
    that is not before the captured one and not before the records applied so far.
   */
  lemma SnapshotIsProjection(w: World, s: State, captured: nat)
    requires Valid(w, s) && captured <= s.durable
    ensures var (slot, value) := TakeSnapshot(w, s.durable, s.slot, Offset(w, captured));
      && value.Some? && slot.live == value
      && slot == s.slot.(source := Some(Offset(w, Target(w, s, captured))), cache := slot.cache, live := value)
      && CacheOk(w, s.(slot := slot))
      && exists k :: s.applied <= k <= s.durable && captured <= k && Matches(w, value.value, k)
  {
    var m := Target(w, s, captured);
    var known := Capture(s.slot, Offset(w, captured));
    var (slot, value) := TakeSnapshot(w, s.durable, s.slot, Offset(w, captured));
    var base: Snapshot;
    var k: nat;
    if UpToDate(w, known) {
      base := known.live.value;
      k :| s.applied <= k <= s.durable && Matches(w, base, k);
      OffsetOrder(w, k, m);
    } else {
      k := if m == 0 then s.durable else m;
      LookupProjects(w, s, m);
      base := Projection(w, k);
      ProjectionMatches(w, k);
    }
    hide Projection, Lookup, WellFormed, Clear, Lawful, Usable, UpToDate;
    assert value == HandOut(known, base).1;
    FlaggedMatches(w, base, k, "true", s.slot.stale);
    assert Matches(w, value.value, k);
  }

  /** Taking a snapshot keeps everything true of the store. */
  lemma TakeKeepsSlot(w: World, s: State, captured: nat)
    requires Valid(w, s) && captured <= s.durable
    ensures Valid(w, s.(slot := TakeSnapshot(w, s.durable, s.slot, Offset(w, captured)).0))
  {
    hide TakeSnapshot, Matches, Projection, PatchOk, CopyOk, Offset;
    SnapshotIsProjection(w, s, captured);
    var (slot, value) := TakeSnapshot(w, s.durable, s.slot, Offset(w, captured));
    var k :| s.applied <= k <= s.durable && Matches(w, value.value, k);
    MatchesForm(w, value.value, k);
    var t := s.(slot := slot);
    assert LiveOk(w, t);
    assert SourceOk(w, t);
    assert BuffersOk(w, t) && CopiesOk(w, t);
  }

  lemma MatchesForm(w: World, s: Snapshot, k: nat)
    requires Matches(w, s, k)
    ensures WellFormed(w.names, s) && k <= |w.lines| && s.cursor == CursorAt(w, k)
  {
  }

  /** A client that stands where the patch starts is brought to the projection at the patch's cursor. */
  lemma DeliverOne(w: World, copy: Snapshot, durable: nat, patch: Patch, applied: nat)
    requires Lawful(w) && applied <= durable && CopyOk(w, copy, durable) && PatchOk(w, patch, applied) && copy.cursor == patch.previous
    ensures CopyOk(w, Apply(copy, patch), durable)
  {
    hide Apply, Projection, Matches, Offset;
    EmptyCursor(w);
    var k :| 0 < k <= applied && LeadsTo(w, patch, k);
    var j :| 0 <= j <= durable && Matches(w, copy, j);
    MatchesForm(w, copy, j);
    hide Lawful;
    OffsetOrder(w, j, k - 1);
    assert Matches(w, Apply(copy, patch), k);
  }

  /** A delivered patch brings the client to the projection at the patch's cursor, or leaves it where it was. */
  lemma DeliverKeepsCopies(w: World, s: State, id: nat)
    requires Valid(w, s) && Enabled(w, s, Receive(id))
    ensures CopiesOk(w, Next(w, s, Receive(id)))
  {
    LawfulOf(w, s.slot);
    hide Apply, Lawful, SourceOk, LiveOk, CacheOk, CopyOk, PatchOk;
    var patch := s.slot.buffers[id][0];
    var t := Next(w, s, Receive(id));
    if id in s.copies && s.copies[id].cursor == patch.previous {
      DeliverOne(w, s.copies[id], s.durable, patch, s.applied);
    }
    forall other | other in t.copies ensures other in t.slot.buffers && CopyOk(w, t.copies[other], t.durable) {
      if other != id {
        assert CopyOk(w, s.copies[other], s.durable);
      }
    }
  }

  lemma LawfulOf(w: World, slot: Slot)
    requires Usable(w, slot)
    ensures Lawful(w)
  {
  }

  lemma EmptyCursor(w: World)
    requires Lawful(w)
    ensures w.generation != "" && w.empty.cursor.generation == ""
  {
  }

  lemma WriteKeeps(w: World, s: State)
    requires Valid(w, s) && Enabled(w, s, Write)
    ensures Valid(w, Next(w, s, Write))
  {
    hide Usable, Matches, Projection, PatchOk, Offset;
    var t := Next(w, s, Write);
    assert SourceOk(w, t) && LiveOk(w, t) && CacheOk(w, t) && BuffersOk(w, t);
    forall id | id in t.copies ensures id in t.slot.buffers && CopyOk(w, t.copies[id], t.durable) {
      assert CopyOk(w, s.copies[id], s.durable);
    }
  }

  lemma HandedCopy(w: World, s: State, id: nat, value: Snapshot, k: nat)
    requires CopiesOk(w, s) && id in s.slot.buffers && 0 <= k <= s.durable && Matches(w, value, k)
    ensures CopiesOk(w, s.(copies := s.copies[id := value]))
  {
    hide Matches;
    assert CopyOk(w, value, s.durable);
    forall other | other in s.copies ensures other in s.slot.buffers && CopyOk(w, s.copies[other], s.durable) { }
  }

  /** A client that is handed a snapshot. */
  lemma TakeKeepsCopies(w: World, s: State, id: nat, captured: nat)
    requires Valid(w, s) && captured <= s.durable && id in s.slot.buffers
    ensures var (slot, value) := TakeSnapshot(w, s.durable, s.slot, Offset(w, captured));
      value.Some? && Valid(w, s.(slot := slot, copies := s.copies[id := value.value]))
  {
    hide Matches, Usable, TakeSnapshot, SourceOk, LiveOk, CacheOk, BuffersOk, CopiesOk;
    TakeKeepsSlot(w, s, captured);
    SnapshotIsProjection(w, s, captured);
    var (slot, value) := TakeSnapshot(w, s.durable, s.slot, Offset(w, captured));
    var k :| s.applied <= k <= s.durable && captured <= k && Matches(w, value.value, k);
    var u := s.(slot := slot);
    HandedCopy(w, u, id, value.value, k);
    SameSlot(w, u, u.copies[id := value.value]);
  }

  /** Only the copies changed, and they are all right. */
  lemma SameSlot(w: World, s: State, copies: map<nat, Snapshot>)
    requires Valid(w, s) && CopiesOk(w, s.(copies := copies))
    ensures Valid(w, s.(copies := copies))
  {
    hide Matches, Usable, PatchOk, CopiesOk, Projection, Offset;
  }

  lemma RegisterKeeps(w: World, s: State)
    requires Valid(w, s)
    ensures Valid(w, s.(slot := Register(s.slot)))
  {
    hide Lawful, WellFormed, Matches, PatchOk, Projection, Offset, CopyOk;
    var u := s.(slot := Register(s.slot));
    assert BuffersOk(w, u) && CacheOk(w, u) && LiveOk(w, u) && SourceOk(w, u);
  }

  lemma ReceiveKeeps(w: World, s: State, id: nat)
    requires Valid(w, s) && Enabled(w, s, Receive(id))
    ensures Valid(w, Next(w, s, Receive(id)))
  {
    DeliverKeepsCopies(w, s, id);
    var t := Next(w, s, Receive(id));
    hide Lawful, WellFormed, Matches, PatchOk, Projection, Offset, CopiesOk;
    assert CacheOk(w, t) && LiveOk(w, t) && SourceOk(w, t);
    forall other, i | other in t.slot.buffers && 0 <= i < |t.slot.buffers[other]| ensures PatchOk(w, t.slot.buffers[other][i], t.applied) {
      if other == id {
        assert t.slot.buffers[id][i] == s.slot.buffers[id][i + 1];
      } else {
        assert t.slot.buffers[other][i] == s.slot.buffers[other][i];
      }
    }
  }

  /** Closing subscribers, or marking the session stale, touches nothing that is projected. */
  lemma CloseKeeps(w: World, s: State, slot: Slot)
    requires Valid(w, s) && slot == s.slot.(stale := slot.stale, subscribers := slot.subscribers) && slot.subscribers <= s.slot.subscribers
    ensures Valid(w, s.(slot := slot))
  {
    hide Lawful, WellFormed, Matches, PatchOk, Projection, Offset, CopyOk;
    var t := s.(slot := slot);
    assert BuffersOk(w, t) && CacheOk(w, t) && LiveOk(w, t) && SourceOk(w, t) && CopiesOk(w, t);
  }

  lemma StepKeepsValid(w: World, s: State, step: Step)
    requires Valid(w, s) && Enabled(w, s, step)
    ensures Valid(w, Next(w, s, step))
  {
    hide Usable, SourceOk, LiveOk, CacheOk, BuffersOk, CopiesOk, TakeSnapshot, ApplyRecord;
    match step
    case Write => WriteKeeps(w, s);
    case Publish =>
      ApplyKeepsSlot(w, s);
      ApplyKeepsBuffers(w, s);
    case Mark(reason) => CloseKeeps(w, s, MarkStale(s.slot, reason));
    case Take(captured) => TakeKeepsSlot(w, s, captured);
    case Subscribe(captured) => 
      RegisterKeeps(w, s);
      TakeKeepsCopies(w, s.(slot := Register(s.slot)), s.slot.next, captured);
    case Join => RegisterKeeps(w, s);
    case Resync(id, captured) => TakeKeepsCopies(w, s, id, captured);
    case Receive(id) => ReceiveKeeps(w, s, id);
    case Close(id) => CloseKeeps(w, s, Unsubscribe(s.slot, id));
  }

  // ----- runs ----------------------------------------------------------------------------------------------

  lemma InitialValid(w: World)
    requires Lawful(w)
    ensures Valid(w, Initial)
  {
  }

  /** One step of a run; a step that is not enabled does not happen. */
  ghost function Do(w: World, s: State, step: Step): (t: State)
    requires Valid(w, s)
    ensures Valid(w, t)
  {
    if Enabled(w, s, step) then
      StepKeepsValid(w, s, step);
      Next(w, s, step)
    else s
  }

  /**
    Every run: whatever the interleaving of records, readers at any captured boundary and deliveries, the
    state reached is valid.
   */
  ghost function After(w: World, steps: seq<Step>): (s: State)
    requires Lawful(w)
    ensures Valid(w, s)
  {
    if steps == [] then
      InitialValid(w);
      Initial
    else Do(w, After(w, steps[..|steps| - 1]), steps[|steps| - 1])
  }

  // ----- when no client has to resynchronise -----------------------------------------------------------

  /** Each patch starts where the one before it ended. */
  ghost predicate Contiguous(at: Cursor, patches: seq<Patch>)
    decreases |patches|
  {
    patches == [] || (patches[0].previous == at && Contiguous(patches[0].cursor, patches[1..]))
  }

  ghost function End(at: Cursor, patches: seq<Patch>): Cursor {
    if patches == [] then at else patches[|patches| - 1].cursor
  }

  lemma {:induction false} ContiguousPush(at: Cursor, patches: seq<Patch>, patch: Patch)
    requires Contiguous(at, patches)
    ensures Contiguous(at, patches + [patch]) <==> patch.previous == End(at, patches)
    decreases |patches|
  {
    if patches == [] {
      assert [patch][1..] == [];
    } else {
      assert (patches + [patch])[1..] == patches[1..] + [patch];
      ContiguousPush(patches[0].cursor, patches[1..], patch);
    }
  }

  /** What waits for a client that has a copy continues that copy without a gap, and reaches the store's snapshot while it is subscribed. */
  ghost predicate LinkedTo(s: State, id: nat) {
    id in s.copies && id in s.slot.buffers ==>
      && Contiguous(s.copies[id].cursor, s.slot.buffers[id])
      && (id in s.slot.subscribers ==> s.slot.live.Some? && End(s.copies[id].cursor, s.slot.buffers[id]) == s.slot.live.value.cursor)
  }

  ghost predicate Linked(s: State) {
    forall id :: id in s.slot.buffers ==> LinkedTo(s, id)
  }

  /** The cursor of the snapshot a reader gets. */
  ghost function Taken(w: World, s: State, captured: nat): Cursor
    requires Valid(w, s) && captured <= s.durable
  {
    SnapshotIsProjection(w, s, captured);
    TakeSnapshot(w, s.durable, s.slot, Offset(w, captured)).1.value.cursor
  }

  /**
    The boundary a reader gets: the larger of the captured and the known one.  Byte 0 is read as the end of
    the file, so at the start of the log a reader gets everything, unless the store stands at the start.
   */
  ghost function Reached(w: World, s: State, captured: nat): (m: nat)
    requires Valid(w, s) && captured <= s.durable
    ensures m <= |w.lines|
  {
    var m := Target(w, s, captured);
    if m == 0 && !(s.slot.live.Some? && s.slot.live.value.cursor == CursorAt(w, 0)) then s.durable else m
  }

  lemma TakenIsReached(w: World, s: State, captured: nat)
    requires Valid(w, s) && captured <= s.durable
    ensures Taken(w, s, captured) == CursorAt(w, Reached(w, s, captured))
  {
    hide Usable, SourceOk, BuffersOk, CopiesOk, Projection, Lawful, WellFormed, CacheOk, Clear;
    var m := Target(w, s, captured);
    var known := Capture(s.slot, Offset(w, captured));
    SnapshotIsProjection(w, s, captured);
    OffsetOrder(w, m, 0);
    if !UpToDate(w, known) {
      var k := if m == 0 then s.durable else m;
      LookupProjects(w, s, m);
      assert Lawful(w) by { LawfulOf(w, s.slot); }
      ProjectionMatches(w, k);
      MatchesForm(w, Projection(w, k), k);
    }
    hide Lookup, LiveOk, Valid, Offset;
  }

  /** Some subscriber has a copy of the session. */
  ghost predicate Followed(s: State) {
    exists id :: id in s.slot.subscribers && id in s.copies
  }

  /** No subscriber has a copy, or the boundary the reader gets is the one the store already stands at. */
  ghost predicate StaysPut(w: World, s: State, captured: nat)
    requires Valid(w, s) && captured <= s.durable
  {
    !Followed(s) || (s.slot.live.Some? && s.slot.live.value.cursor == CursorAt(w, Reached(w, s, captured)))
  }

  /** A snapshot taken by someone else leaves the clients linked if and only if it does not move the store's cursor under a subscriber. */
  lemma TakeLinks(w: World, s: State, captured: nat)
    requires Valid(w, s) && Linked(s) && captured <= s.durable
    ensures Linked(Next(w, s, Take(captured)))
      <==> StaysPut(w, s, captured)
  {
    SnapshotIsProjection(w, s, captured);
    TakenIsReached(w, s, captured);
    var t := Next(w, s, Take(captured));
    assert t.slot.buffers == s.slot.buffers && t.slot.subscribers == s.slot.subscribers && t.copies == s.copies;
    assert t.slot.live.value.cursor == Taken(w, s, captured);
    assert s.slot.subscribers <= s.slot.buffers.Keys;
    hide Valid, TakeSnapshot, Contiguous, End, Taken, Reached;
    if Followed(s) {
      var id :| id in s.slot.subscribers && id in s.copies;
      assert LinkedTo(s, id);
      if Linked(t) {
        assert LinkedTo(t, id);
      }
    }
    if !Followed(s) || t.slot.live.value.cursor == s.slot.live.value.cursor {
      forall id | id in t.slot.buffers ensures LinkedTo(t, id) {
        assert LinkedTo(s, id);
      }
    }
  }

  /** Sending a patch that starts at the store's cursor, and moving the store to its end, links everyone still subscribed. */
  lemma SendLinks(s: State, t: State, patch: Patch)
    requires Linked(s) && t.copies == s.copies
    requires t.slot.buffers == Sent(s.slot.subscribers, s.slot.buffers, patch) && t.slot.subscribers == Roomy(s.slot.subscribers, s.slot.buffers)
    requires s.slot.live.Some? ==> patch.previous == s.slot.live.value.cursor
    requires t.slot.live.Some? && patch.cursor == t.slot.live.value.cursor
    ensures Linked(t)
  {
    hide Contiguous;
    forall id | id in t.slot.buffers ensures LinkedTo(t, id) {
      assert LinkedTo(s, id);
      if id in s.copies {
        ContiguousPush(s.copies[id].cursor, s.slot.buffers[id], patch);
      }
    }
  }

  /** Nothing changed but that some clients are no longer subscribed. */
  lemma StillLinked(s: State, t: State)
    requires Linked(s) && t.copies == s.copies && t.slot.buffers == s.slot.buffers && t.slot.live == s.slot.live
    requires t.slot.subscribers <= s.slot.subscribers
    ensures Linked(t)
  {
    hide Contiguous, End;
    forall id | id in t.slot.buffers ensures LinkedTo(t, id) {
      assert LinkedTo(s, id);
    }
  }

  lemma PatchEnds(w: World, before: Snapshot, k: nat)
    requires k < |w.lines|
    ensures PatchFrom(w, before, k).previous == before.cursor && PatchFrom(w, before, k).cursor == Refreshed(w, before, k).cursor
  {
  }

  /** A record in order leaves the clients linked. */
  lemma PublishLinks(w: World, s: State)
    requires Valid(w, s) && Linked(s) && s.applied < s.durable
    ensures Linked(Next(w, s, Publish))
  {
    hide Linked, PatchFrom, ApplyRecord, Refreshed, Lawful, WellFormed, SourceOk, LiveOk, CacheOk, BuffersOk, CopiesOk, Sent, Roomy;
    var t := Next(w, s, Publish);
    ApplySends(w, s);
    if t.slot.live == s.slot.live {
      StillLinked(s, t);
    } else {
      PatchEnds(w, Before(w, s.slot), s.applied);
      SendLinks(s, t, PatchFrom(w, Before(w, s.slot), s.applied));
    }
  }

  lemma TakeIgnoresRegister(w: World, durable: nat, slot: Slot, captured: nat)
    requires durable <= |w.lines|
    ensures TakeSnapshot(w, durable, Register(slot), captured).1 == TakeSnapshot(w, durable, slot, captured).1
  {
  }

  lemma SubscribeLinks(w: World, s: State, captured: nat)
    requires Valid(w, s) && Linked(s) && captured <= s.durable
    requires StaysPut(w, s, captured)
    ensures Linked(Next(w, s, Subscribe(captured)))
  {
    hide Contiguous, TakeSnapshot, Lawful, WellFormed, SourceOk, LiveOk, CacheOk, BuffersOk, CopiesOk;
    var id := s.slot.next;
    var u := s.(slot := Register(s.slot));
    RegisterKeeps(w, s);
    SnapshotIsProjection(w, u, captured);
    SnapshotIsProjection(w, s, captured);
    TakenIsReached(w, s, captured);
    TakeIgnoresRegister(w, s.durable, s.slot, Offset(w, captured));
    var (slot, value) := TakeSnapshot(w, s.durable, u.slot, Offset(w, captured));
    var t := Next(w, s, Subscribe(captured));
    assert id !in s.slot.buffers;
    RegisterLinks(s, t, value.value);
  }

  /** A new subscriber starts at the snapshot it is handed, with nothing waiting. */
  lemma RegisterLinks(s: State, t: State, value: Snapshot)
    requires Linked(s) && s.slot.next !in s.slot.buffers
    requires t.copies == s.copies[s.slot.next := value] && t.slot.buffers == s.slot.buffers[s.slot.next := []]
    requires t.slot.subscribers == s.slot.subscribers + {s.slot.next} && t.slot.live == Some(value)
    requires !Followed(s) || (s.slot.live.Some? && value.cursor == s.slot.live.value.cursor)
    ensures Linked(t)
  {
    forall id | id in t.slot.buffers ensures LinkedTo(t, id) {
      assert id != s.slot.next ==> LinkedTo(s, id);
    }
  }

  lemma JoinLinks(w: World, s: State)
    requires Valid(w, s) && Linked(s)
    ensures Linked(Next(w, s, Join))
  {
    assert s.slot.next !in s.copies;
    var t := Next(w, s, Join);
    hide Valid, Contiguous, End;
    forall id | id in t.slot.buffers ensures LinkedTo(t, id) {
      assert id != s.slot.next ==> LinkedTo(s, id);
    }
  }

  /** In a linked state no delivered patch is refused. */
  lemma LinkedIsAccepted(w: World, s: State, id: nat)
    requires Valid(w, s) && Linked(s) && Enabled(w, s, Receive(id))
    ensures id in s.copies ==> s.copies[id].cursor == s.slot.buffers[id][0].previous
    ensures Linked(Next(w, s, Receive(id)))
  {
    var t := Next(w, s, Receive(id));
    var buffer := s.slot.buffers[id];
    assert LinkedTo(s, id);
    assert id in s.copies ==> t.copies[id].cursor == buffer[0].cursor && t.copies == s.copies[id := t.copies[id]];
    assert id !in s.copies ==> t.copies == s.copies;
    assert t.slot == s.slot.(buffers := s.slot.buffers[id := buffer[1..]]);
    hide Valid, Next;
    forall other | other in t.slot.buffers ensures LinkedTo(t, other) {
      assert LinkedTo(s, other);
    }
  }

  /** A step that does not take a snapshot away from the store's cursor, and is not a resynchronisation. */
  ghost predicate Quiet(w: World, s: State, step: Step)
    requires Valid(w, s) && Enabled(w, s, step)
  {
    match step
    case Take(captured) => StaysPut(w, s, captured)
    case Subscribe(captured) => StaysPut(w, s, captured)
    case Resync(_, _) => false
    case _ => true
  }

  lemma StepKeepsLinks(w: World, s: State, step: Step)
    requires Valid(w, s) && Linked(s) && Enabled(w, s, step) && Quiet(w, s, step)
    ensures Linked(Next(w, s, step))
  {
    hide Linked, SourceOk, LiveOk, CacheOk, BuffersOk, CopiesOk, TakeSnapshot, ApplyRecord;
    match step
    case Publish => PublishLinks(w, s);
    case Take(captured) => TakeLinks(w, s, captured);
    case Subscribe(captured) => SubscribeLinks(w, s, captured);
    case Receive(id) => LinkedIsAccepted(w, s, id);
    case Resync(_, _) =>
    case Join => JoinLinks(w, s);
    case Write => StillLinked(s, Next(w, s, step));
    case Mark(_) => StillLinked(s, Next(w, s, step));
    case Close(_) => StillLinked(s, Next(w, s, step));
  }

  ghost predicate QuietRun(w: World, steps: seq<Step>)
    requires Lawful(w)
  {
    steps == [] || (
      var before := After(w, steps[..|steps| - 1]);
      var step := steps[|steps| - 1];
      QuietRun(w, steps[..|steps| - 1]) && (Enabled(w, before, step) ==> Quiet(w, before, step)))
  }

  /** In a quiet run every patch that waits for a client will be accepted: the client never has to resynchronise. */
  lemma {:induction false} QuietRunNeedsNoResync(w: World, steps: seq<Step>)
    requires Lawful(w) && QuietRun(w, steps)
    ensures Linked(After(w, steps))
  {
    hide Valid, Linked, Next, Quiet;
    if steps == [] {
      assert Linked(Initial) by { InitialLinked(); }
    } else {
      var before := After(w, steps[..|steps| - 1]);
      var step := steps[|steps| - 1];
      QuietRunNeedsNoResync(w, steps[..|steps| - 1]);
      if Enabled(w, before, step) {
        StepKeepsLinks(w, before, step);
      }
    }
  }

  lemma InitialLinked()
    ensures Linked(Initial)
  {
  }

  // ----- the cursor of a subscriber and the patches after it -----------------------------------------------

  /** The client is subscribed, has nothing waiting and stands where the store stands, `k` records in. */
  ghost predicate InStep(w: World, s: State, id: nat, k: nat) {
    && k <= |w.lines| && id in s.slot.subscribers && id in s.slot.buffers && s.slot.buffers[id] == []
    && s.slot.live.Some? && s.slot.live.value.cursor == CursorAt(w, k)
    && id in s.copies && s.copies[id].cursor == CursorAt(w, k)
  }

  /** A record the store is already past changes only the known boundary. */
  lemma PublishBehind(w: World, s: State, k: nat)
    requires Valid(w, s) && s.applied < k <= s.durable
    requires s.slot.live.Some? && s.slot.live.value.cursor == CursorAt(w, k)
    ensures Next(w, s, Publish) == s.(applied := s.applied + 1, slot := s.slot.(source := Some(Offset(w, s.applied + 1))))
  {
    hide Lawful, WellFormed, SourceOk, LiveOk, CacheOk, BuffersOk, CopiesOk, Projection, Refreshed, Diff, Broadcast;
    OffsetOrder(w, s.applied + 1, k);
  }

  /** The next record moves the store on and is sent to a client that has nothing waiting. */
  lemma PublishSends(w: World, s: State, id: nat)
    requires Valid(w, s) && s.applied < s.durable
    requires s.slot.live.Some? && s.slot.live.value.cursor == CursorAt(w, s.applied)
    requires id in s.slot.subscribers && s.slot.buffers[id] == []
    ensures var t := Next(w, s, Publish);
      && t.copies == s.copies && id in t.slot.buffers && |t.slot.buffers[id]| == 1
      && t.slot.buffers[id][0].previous == CursorAt(w, s.applied) && t.slot.buffers[id][0].cursor == CursorAt(w, s.applied + 1)
  {
    var before := s.slot.live.value;
    OffsetOrder(w, s.applied, s.applied + 1);
    ApplySends(w, s);
    PatchEnds(w, before, s.applied);
    assert Refreshed(w, before, s.applied).cursor == CursorAt(w, s.applied + 1);
    hide Diff, Refreshed, Lawful, WellFormed, SourceOk, LiveOk, CacheOk, BuffersOk, CopiesOk, Projection, PatchFrom;
  }

  /** A snapshot taken at a boundary moves the store there, forwards or backwards, and nothing else a client sees. */
  lemma TakeMoves(w: World, s: State, captured: nat)
    requires Valid(w, s) && captured <= s.durable && 0 < s.applied
    requires s.slot.source.Some? && s.slot.source.value <= Offset(w, captured)
    ensures var t := Next(w, s, Take(captured));
      && t.slot.live.Some? && t.slot.live.value.cursor == CursorAt(w, captured)
      && t.slot.subscribers == s.slot.subscribers && t.slot.buffers == s.slot.buffers && t.copies == s.copies
      && t.applied == s.applied && t.durable == s.durable
  {
    hide TakeSnapshot, Lawful, WellFormed, LiveOk, CacheOk, BuffersOk, CopiesOk, Projection;
    SnapshotIsProjection(w, s, captured);
    TakenIsReached(w, s, captured);
    OffsetOrder(w, Target(w, s, captured), captured);
  }

  /** The first patch waiting for the client does not start at its copy's cursor: the client must resynchronise. */
  ghost predicate Refuses(s: State, id: nat) {
    id in s.copies && id in s.slot.buffers && s.slot.buffers[id] != [] && s.slot.buffers[id][0].previous != s.copies[id].cursor
  }

  /** The first patch waiting for the client ends where its copy already is. */
  ghost predicate Repeats(s: State, id: nat) {
    id in s.copies && id in s.slot.buffers && s.slot.buffers[id] != [] && s.slot.buffers[id][0].cursor == s.copies[id].cursor
  }

  /** The store has run one record ahead of the bus and of the client. */
  ghost predicate RunAhead(w: World, s: State, id: nat) {
    && s.applied + 2 <= s.durable <= |w.lines| && id in s.slot.subscribers && id in s.slot.buffers && s.slot.buffers[id] == []
    && s.slot.live.Some? && s.slot.live.value.cursor == CursorAt(w, s.applied + 1)
    && id in s.copies && s.copies[id].cursor == CursorAt(w, s.applied)
  }

  lemma TakeRunsAhead(w: World, s: State, id: nat)
    requires Valid(w, s) && 0 < s.applied && s.applied + 2 <= s.durable && InStep(w, s, id, s.applied)
    requires s.slot.source == Some(Offset(w, s.applied))
    ensures RunAhead(w, Do(w, s, Take(s.applied + 1)), id)
  {
    ValidBounds(w, s);
    OffsetOrder(w, s.applied, s.applied + 1);
    hide Valid, Next, Offset;
    TakeMoves(w, s, s.applied + 1);
  }

  lemma RunAheadRefuses(w: World, s: State, id: nat)
    requires Valid(w, s) && RunAhead(w, s, id)
    ensures Refuses(Do(w, Do(w, s, Publish), Publish), id)
  {
    hide Valid, Next, Offset;
    var k := s.applied;
    OffsetOrder(w, k, k + 1);
    PublishBehind(w, s, k + 1);
    PublishSends(w, Do(w, s, Publish), id);
  }

  /**
    A snapshot that runs ahead of the applied records costs every other subscriber a patch: the record in
    between is never sent, and the patch after it does not fit the client's copy.
   */
  lemma AheadSnapshotSkipsAPatch(w: World, s: State, id: nat)
    requires Valid(w, s) && 0 < s.applied && s.applied + 2 <= s.durable && InStep(w, s, id, s.applied)
    requires s.slot.source == Some(Offset(w, s.applied))
    ensures Refuses(Do(w, Do(w, Do(w, s, Take(s.applied + 1)), Publish), Publish), id)
  {
    hide Valid, Do, RunAhead, Refuses, InStep;
    TakeRunsAhead(w, s, id);
    RunAheadRefuses(w, Do(w, s, Take(s.applied + 1)), id);
  }

  /** The store stands one record behind the client, after the bus delivered records it had covered. */
  ghost predicate FallenBack(w: World, s: State, id: nat) {
    && s.applied + 1 <= s.durable <= |w.lines| && id in s.slot.subscribers && id in s.slot.buffers && s.slot.buffers[id] == []
    && s.slot.live.Some? && s.slot.live.value.cursor == CursorAt(w, s.applied)
    && id in s.copies && s.copies[id].cursor == CursorAt(w, s.applied + 1)
  }

  /** A record the store has already covered leaves a client in step, and makes its boundary the known one. */
  lemma PublishStays(w: World, s: State, id: nat, k: nat)
    requires Valid(w, s) && InStep(w, s, id, k) && s.applied < k <= s.durable
    ensures var t := Do(w, s, Publish);
      && InStep(w, t, id, k) && t.applied == s.applied + 1 && t.durable == s.durable
      && s.durable <= |w.lines| && t.slot.source == Some(Offset(w, s.applied + 1))
  {
    ValidBounds(w, s);
    hide Valid, Next, Offset;
    PublishBehind(w, s, k);
  }

  lemma TakeFallsBack(w: World, s: State, id: nat)
    requires Valid(w, s) && 0 < s.applied < s.durable && InStep(w, s, id, s.applied + 1)
    requires s.durable <= |w.lines| && s.slot.source == Some(Offset(w, s.applied))
    ensures FallenBack(w, Do(w, s, Take(s.applied)), id)
  {
    ValidBounds(w, s);
    hide Valid, Next, Offset;
    TakeMoves(w, s, s.applied);
  }

  lemma FallenBackRepeats(w: World, s: State, id: nat)
    requires Valid(w, s) && FallenBack(w, s, id)
    ensures Repeats(Do(w, s, Publish), id)
  {
    hide Valid, Next, Offset;
    PublishSends(w, s, id);
  }

  /**
    The store can move backwards, and then sends a subscriber a patch that is not after its cursor: the
    bus delivers a record the snapshot already covered, and a reader who captured that record's boundary
    takes a snapshot.
   */
  lemma PatchNotAfterCursor(w: World, s: State, id: nat)
    requires Valid(w, s) && s.applied + 2 <= s.durable && InStep(w, s, id, s.applied + 2)
    ensures Repeats(Do(w, Do(w, Do(w, s, Publish), Take(s.applied + 1)), Publish), id)
  {
    hide Valid, Do, FallenBack, Repeats, InStep;
    PublishStays(w, s, id, s.applied + 2);
    TakeFallsBack(w, Do(w, s, Publish), id);
    FallenBackRepeats(w, Do(w, Do(w, s, Publish), Take(s.applied + 1)), id);
  }

  lemma ValidBounds(w: World, s: State)
    requires Valid(w, s)
    ensures s.applied <= s.durable <= |w.lines|
  {
  }

  lemma AfterPush(w: World, steps: seq<Step>, step: Step)
    requires Lawful(w)
    ensures After(w, steps + [step]) == Do(w, After(w, steps), step)
  {
    hide Valid, Lawful;
    assert (steps + [step])[..|steps|] == steps;
  }

  /** A reader at a boundary not before the known one gets exactly that boundary. */
  lemma TakeAt(w: World, s: State, captured: nat)
    requires Valid(w, s) && 0 < captured <= s.durable
    requires s.slot.source.None? || s.slot.source.value <= Offset(w, captured)
    ensures var (slot, value) := TakeSnapshot(w, s.durable, s.slot, Offset(w, captured));
      && value.Some? && value.value.cursor == CursorAt(w, captured)
      && slot == s.slot.(source := Some(Offset(w, captured)), cache := slot.cache, live := value)
  {
    ValidBounds(w, s);
    hide TakeSnapshot, Usable, SourceOk, LiveOk, CacheOk, BuffersOk, CopiesOk, Projection, Matches;
    SnapshotIsProjection(w, s, captured);
    TakenIsReached(w, s, captured);
    OffsetOrder(w, Target(w, s, captured), captured);
    OffsetOrder(w, 0, captured);
  }

  /** A reader that subscribes at a boundary not before the known one is in step with the store there. */
  lemma SubscribeInStep(w: World, s: State, captured: nat)
    requires Valid(w, s) && 0 < captured <= s.durable
    requires s.slot.source.None? || s.slot.source.value <= Offset(w, captured)
    ensures var t := Do(w, s, Subscribe(captured));
      && InStep(w, t, s.slot.next, captured) && t.applied == s.applied && t.durable == s.durable
      && t.slot.source == Some(Offset(w, captured))
  {
    ValidBounds(w, s);
    hide Valid, TakeSnapshot, Offset, Do;
    RegisterKeeps(w, s);
    TakeAt(w, s.(slot := Register(s.slot)), captured);
    SubscribeIs(w, s, captured);
  }

  lemma SubscribeIs(w: World, s: State, captured: nat)
    requires Valid(w, s) && captured <= s.durable
    ensures var (slot, value) := TakeSnapshot(w, s.durable, Register(s.slot), Offset(w, captured));
      value.Some? ==> Do(w, s, Subscribe(captured)) == s.(slot := slot, copies := s.copies[s.slot.next := value.value])
  {
    hide TakeSnapshot, Lawful, SourceOk, LiveOk, CacheOk, BuffersOk, CopiesOk, Register;
  }

  lemma SubscribeNext(w: World, s: State, captured: nat)
    requires Valid(w, s) && captured <= s.durable
    ensures var t := Next(w, s, Subscribe(captured));
      t.slot == SubscribeSnapshot(w, s.durable, s.slot, Offset(w, captured)).0 && t.durable == s.durable && t.applied == s.applied
  {
    hide SubscribeSnapshot, Lawful, SourceOk, LiveOk, CacheOk, BuffersOk, CopiesOk;
  }

  /** What a new subscriber is handed: a projection not before what it captured, nor before the applied records. */
  lemma SubscribeGives(w: World, s: State, captured: nat)
    requires Valid(w, s) && captured <= s.durable
    ensures var (slot, value) := SubscribeSnapshot(w, s.durable, s.slot, Offset(w, captured));
      && value.Some? && slot.live == value && s.slot.next in slot.subscribers
      && s.slot.next in slot.buffers && slot.buffers[s.slot.next] == []
      && exists k :: s.applied <= k <= s.durable && captured <= k && Matches(w, value.value, k)
  {
    var u := s.(slot := Register(s.slot));
    RegisterKeeps(w, s);
    SnapshotIsProjection(w, u, captured);
    hide Valid, TakeSnapshot, Matches, Offset;
  }

  lemma TwoWrites(w: World)
    requires Lawful(w) && |w.lines| >= 2
    ensures After(w, [Write] + [Write]) == State(2, 0, NewSlot, map[]) && After(w, [Write]) == State(1, 0, NewSlot, map[])
  {
    hide Valid, Lawful;
    assert [] + [Write] == [Write];
    AfterPush(w, [], Write);
    AfterPush(w, [Write], Write);
  }

  /** A client that subscribed before the session existed is subscribed when its first record arrives. */
  lemma JoinedIsReached(w: World)
    requires Lawful(w) && |w.lines| >= 1
    ensures var s := After(w, [Join] + [Write]); s.slot.live.None? && s.slot.subscribers == {0} && s.applied == 0 && s.durable == 1
  {
    hide Valid, Lawful;
    assert [] + [Join] == [Join];
    AfterPush(w, [], Join);
    AfterPush(w, [Join], Write);
  }

  /** The second situation arises for every log: the first reader captures two records ahead of the bus. */
  lemma AheadIsReached(w: World)
    requires Lawful(w) && |w.lines| >= 2
    ensures var s := After(w, [Write] + [Write] + [Subscribe(2)]); s.applied == 0 && s.durable == 2 && InStep(w, s, 0, 2)
  {
    hide Valid, Lawful, Do, InStep;
    TwoWrites(w);
    AfterPush(w, [Write] + [Write], Subscribe(2));
    SubscribeInStep(w, After(w, [Write] + [Write]), 2);
  }

  /** The first one does as well: a subscriber in step with the bus, and two more records written. */
  lemma SkipIsReached(w: World)
    requires Lawful(w) && |w.lines| >= 3
    ensures var s := After(w, [Write] + [Publish] + [Subscribe(1)] + [Write] + [Write]);
      s.applied == 1 && s.durable == 3 && InStep(w, s, 0, 1) && s.slot.source == Some(Offset(w, 1))
  {
    TwoWrites(w);
    var steps := [Write] + [Publish];
    AfterPush(w, [Write], Publish);
    assert After(w, steps) == State(1, 1, NewSlot.(source := Some(Offset(w, 1))), map[]);
    hide Valid, Lawful, Offset;
    SubscribeInStep(w, After(w, steps), 1);
    AfterPush(w, steps, Subscribe(1));
    AfterPush(w, steps + [Subscribe(1)], Write);
    AfterPush(w, steps + [Subscribe(1)] + [Write], Write);
  }

  /** A world that meets the assumptions: the reducer records the events in the timeline. */
  lemma LawfulWorld(lines: seq<Line>) returns (w: World)
    requires forall i :: 0 <= i < |lines| ==> lines[i].size <= MaxRecordBytes
    ensures Lawful(w) && w.lines == lines
  {
    var fields: map<string, Json> := map[StaleName := "false", ReasonName := ""];
    var blank := Snapshot(Cursor("", 0), fields, Run("", ""), [], []);
    w := World([StaleName, ReasonName], "session.jsonl", blank, lines,
      (s: Snapshot, e: Record) => s.(timeline := s.timeline + [e.event]), (e: Json) => false);
    LawfulTimeline(w);
  }

  lemma LawfulTimeline(w: World)
    requires Readable(w, |w.lines|)
    requires w.names == [StaleName, ReasonName] && w.generation != "" && w.empty.cursor == Cursor("", 0) && w.empty.chat == []
    requires w.empty.fields.Keys == {StaleName, ReasonName}
    requires w.reduce == ((s: Snapshot, e: Record) => s.(timeline := s.timeline + [e.event])) && w.created == ((e: Json) => false)
    ensures Lawful(w)
  {
    forall k | 0 <= k <= |w.lines| ensures KeepsForm(w, k) {
      TimelineForm(w, k);
    }
    forall k, s | 0 <= k < |w.lines| ensures StaleBlind(w, s, k) {
      TimelineBlind(w, s, k);
    }
  }

  lemma TimelineBlind(w: World, s: Snapshot, k: nat)
    requires k < |w.lines| && w.reduce == ((s: Snapshot, e: Record) => s.(timeline := s.timeline + [e.event]))
    ensures StaleBlind(w, s, k)
  {
    var p, cursor, e := Projection(w, k), CursorAt(w, k + 1), w.lines[k].event;
    assert s.timeline == Clear(s).timeline && p.timeline == Clear(p).timeline;
    assert Clear(Advance(w, s, k)) == Clear(s).(timeline := s.timeline + [e], cursor := cursor);
    assert Clear(Advance(w, p, k)) == Clear(p).(timeline := p.timeline + [e], cursor := cursor);
  }

  lemma {:induction false} TimelineForm(w: World, k: nat)
    requires k <= |w.lines| && w.names == [StaleName, ReasonName] && w.empty.chat == [] && w.empty.fields.Keys == {StaleName, ReasonName}
    requires w.reduce == ((s: Snapshot, e: Record) => s.(timeline := s.timeline + [e.event]))
    ensures WellFormed(w.names, Projection(w, k)) && Projection(w, k).chat == []
  {
    if k > 0 {
      TimelineForm(w, k - 1);
    }
  }
}
