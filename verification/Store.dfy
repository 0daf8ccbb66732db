/**
  The live projection store of one session: a cached snapshot, kept up to date by folding each durable
  record once, and re-projected from the log whenever a reader captured a different record boundary.
 */
module Store {
  import opened Prelude
  import opened Patch

  type positive = n: nat | 0 < n witness 1

  datatype Line = Line(event: Json, size: positive)

  /** A log record as the reducer sees it: the event and the boundary just behind it. */
  datatype Record = Record(cursor: Cursor, event: Json)

  /**
    One log generation.  `lines` is the log as it will finally be, so that every moment of a run sees a
    prefix of it; `reduce` is what a record does to a snapshot apart from moving its cursor.
   */
  datatype World = World(
    names: seq<string>, generation: string, empty: Snapshot, lines: seq<Line>,
    reduce: (Snapshot, Record) -> Snapshot, created: Json -> bool)

  const StaleName := "projection_stale"
  const ReasonName := "projection_stale_reason"

  function Flagged(s: Snapshot, stale: string, reason: string): Snapshot {
    s.(fields := s.fields[StaleName := stale][ReasonName := reason])
  }

  /** The snapshot with the two fields that say whether it is out of date reset. */
  function Clear(s: Snapshot): Snapshot {
    Flagged(s, "false", "")
  }

  /**
    What is assumed, of the records of this log only: no line is too long to be read back, every projection
    has the listed fields and distinct chat keys, the two stale fields make no difference to what a record
    does, and a session.created record starts afresh.
   */
  ghost predicate Lawful(w: World) {
    && FieldNames(w.names) && StaleName in w.names && ReasonName in w.names
    && w.generation != "" && Readable(w, |w.lines|)
    && WellFormed(w.names, w.empty) && w.empty.cursor == Cursor("", 0)
    && (forall k :: 0 <= k <= |w.lines| ==> KeepsForm(w, k))
    && (forall k, s :: 0 <= k < |w.lines| ==> StaleBlind(w, s, k))
    && (forall k :: 0 <= k < |w.lines| ==> StartsAfresh(w, k))
  }

  ghost predicate KeepsForm(w: World, k: nat)
    requires k <= |w.lines|
  {
    WellFormed(w.names, Projection(w, k))
  }

  ghost predicate StaleBlind(w: World, s: Snapshot, k: nat)
    requires k < |w.lines|
  {
    Clear(s) == Clear(Projection(w, k)) ==> Clear(Advance(w, s, k)) == Clear(Projection(w, k + 1))
  }

  ghost predicate StartsAfresh(w: World, k: nat)
    requires k < |w.lines|
  {
    w.created(w.lines[k].event) ==> Clear(Advance(w, w.empty, k)) == Clear(Projection(w, k + 1))
  }

  // ----- projecting the log from scratch ----------------------------------------------------------------

  /** The byte offset just behind the first `k` records. */
  function Offset(w: World, k: nat): nat
    requires k <= |w.lines|
  {
    if k == 0 then 0 else Offset(w, k - 1) + w.lines[k - 1].size
  }

  function CursorAt(w: World, k: nat): Cursor
    requires k <= |w.lines|
  {
    Cursor(w.generation, Offset(w, k))
  }

  /** One record folded in. */
  function Advance(w: World, s: Snapshot, k: nat): Snapshot
    requires k < |w.lines|
  {
    var cursor := CursorAt(w, k + 1);
    w.reduce(s, Record(cursor, w.lines[k].event)).(cursor := cursor)
  }

  /** The projection through the first `k` records. */
  function Projection(w: World, k: nat): Snapshot
    requires k <= |w.lines|
  {
    if k == 0 then w.empty.(cursor := CursorAt(w, 0)) else Advance(w, Projection(w, k - 1), k - 1)
  }

  lemma {:induction false} OffsetIncreases(w: World, i: nat, j: nat)
    requires i < j <= |w.lines|
    ensures Offset(w, i) < Offset(w, j)
    decreases j
  {
    if i < j - 1 {
      OffsetIncreases(w, i, j - 1);
    }
  }

  lemma OffsetOrder(w: World, i: nat, j: nat)
    requires i <= |w.lines| && j <= |w.lines|
    ensures i < j <==> Offset(w, i) < Offset(w, j)
    ensures i == j <==> Offset(w, i) == Offset(w, j)
  {
    if i < j {
      OffsetIncreases(w, i, j);
    } else if j < i {
      OffsetIncreases(w, j, i);
    }
  }

  /** The number of records before byte `through`, when that is a record boundary of the durable log. */
  function Boundary(w: World, durable: nat, through: nat): (r: Option<nat>)
    requires durable <= |w.lines|
    ensures r.Some? ==> r.value <= durable && Offset(w, r.value) == through
    ensures r.None? ==> forall k :: 0 <= k <= durable ==> Offset(w, k) != through
  {
    if Offset(w, durable) == through then Some(durable)
    else if durable == 0 then None
    else Boundary(w, durable - 1, through)
  }

  /** A longer line is refused. */
  const MaxRecordBytes := 64 * 1024 * 1024

  predicate Readable(w: World, k: nat)
    requires k <= |w.lines|
  {
    forall i :: 0 <= i < k ==> w.lines[i].size <= MaxRecordBytes
  }

  /** Reading through byte 0 means reading to the end of the file. */
  function Project(w: World, durable: nat, through: nat): Option<Snapshot>
    requires durable <= |w.lines|
  {
    var k := if through == 0 then Some(durable) else Boundary(w, durable, through);
    if k.Some? && Readable(w, k.value) then Some(Projection(w, k.value)) else None
  }

  /**
    Read record by record up to a byte offset, refusing a line that is too long and an offset that is not a
    record boundary or lies behind the durable end, and then fold what was read.
   */
  method ProjectLog(w: World, durable: nat, through: nat) returns (r: Option<Snapshot>)
    requires durable <= |w.lines|
    ensures r == Project(w, durable, through)
  {
    var records, offset := 0, 0;
    while records < durable && (through == 0 || offset != through)
      invariant records <= durable && offset == Offset(w, records) && Readable(w, records)
      invariant through == 0 || offset <= through
    {
      if w.lines[records].size > MaxRecordBytes {
        if through > 0 && Boundary(w, durable, through).Some? {
          OffsetOrder(w, records, Boundary(w, durable, through).value);
        }
        return None;
      }
      var next := offset + w.lines[records].size;
      if through > 0 && next > through {
        forall k | 0 <= k <= durable ensures Offset(w, k) != through {
          OffsetOrder(w, k, records);
          OffsetOrder(w, k, records + 1);
        }
        return None;
      }
      records, offset := records + 1, next;
    }
    if through > 0 && offset != through {
      forall k | 0 <= k <= durable ensures Offset(w, k) != through {
        OffsetOrder(w, k, durable);
      }
      return None;
    }
    if through > 0 {
      OffsetOrder(w, records, Boundary(w, durable, through).value);
    }
    var state := w.empty.(cursor := CursorAt(w, 0));
    for i := 0 to records
      invariant state == Projection(w, i)
    {
      state := Advance(w, state, i);
    }
    return Some(state);
  }

  // ----- the store --------------------------------------------------------------------------------------

  /** How many undelivered patches a subscriber may have. */
  const Capacity := 128

  /** `buffers` holds the undelivered patches of every channel ever opened, closed ones included. */
  datatype Slot = Slot(
    source: Option<nat>, live: Option<Snapshot>, stale: string, cache: map<nat, Snapshot>,
    subscribers: set<nat>, buffers: map<nat, seq<Patch>>, next: nat)

  const NewSlot := Slot(None, None, "", map[], {}, map[], 0)

  /** The cache is keyed by the offset the file is read through, the end of the file standing for byte 0. */
  function CacheKey(w: World, durable: nat, through: nat): nat
    requires durable <= |w.lines|
  {
    if through == 0 then Offset(w, durable) else through
  }

  function Lookup(w: World, durable: nat, cache: map<nat, Snapshot>, through: nat): (Option<Snapshot>, map<nat, Snapshot>)
    requires durable <= |w.lines|
  {
    var key := CacheKey(w, durable, through);
    if key in cache then (Some(cache[key]), cache)
    else
      var value := Project(w, durable, key);
      (value, if value.Some? then cache[key := value.value] else cache)
  }

  /** The subscribers whose channel has room. */
  function Roomy(subscribers: set<nat>, buffers: map<nat, seq<Patch>>): set<nat> {
    set id | id in subscribers && id in buffers && |buffers[id]| < Capacity
  }

  function Sent(subscribers: set<nat>, buffers: map<nat, seq<Patch>>, patch: Patch): map<nat, seq<Patch>> {
    map id | id in buffers :: if id in Roomy(subscribers, buffers) then buffers[id] + [patch] else buffers[id]
  }

  /** Every subscriber with room gets the patch; the others are closed. */
  function Broadcast(slot: Slot, patch: Patch): Slot {
    slot.(subscribers := Roomy(slot.subscribers, slot.buffers), buffers := Sent(slot.subscribers, slot.buffers, patch))
  }

  /** A subscriber with fewer than 128 undelivered patches gets the patch and stays; a full one is closed and gets nothing. */
  lemma BroadcastMeans(slot: Slot, patch: Patch, id: nat)
    requires id in slot.buffers
    ensures var next := Broadcast(slot, patch); var gets := id in slot.subscribers && |slot.buffers[id]| < 128;
      && next.buffers.Keys == slot.buffers.Keys && next.buffers[id] == (if gets then slot.buffers[id] + [patch] else slot.buffers[id])
      && (id in next.subscribers <==> gets)
  {
  }

  ghost predicate Usable(w: World, slot: Slot) {
    && Lawful(w)
    && slot.subscribers <= slot.buffers.Keys
    && (forall id :: id in slot.buffers ==> id < slot.next)
  }

  /** The snapshot after a record, the stale fields reset. */
  function Refreshed(w: World, before: Snapshot, k: nat): (r: Snapshot)
    requires k < |w.lines|
  {
    Clear(Advance(w, before, k))
  }

  lemma ClearKeepsForm(names: seq<string>, s: Snapshot, stale: string, reason: string)
    requires StaleName in names && ReasonName in names && WellFormed(names, s)
    ensures WellFormed(names, Flagged(s, stale, reason))
  {
  }

  /** Record `k` arrives from the event bus. */
  function ApplyRecord(w: World, slot: Slot, k: nat): Slot
    requires k < |w.lines|
  {
    var known := slot.(source := Some(Offset(w, k + 1)));
    if slot.live.None? && (slot.subscribers == {} || !w.created(w.lines[k].event)) then known
    else
      var before := if slot.live.Some? then slot.live.value else w.empty;
      if before.cursor.generation == w.generation && before.cursor.offset >= Offset(w, k + 1) then known.(live := Some(before))
      else
        var after := Refreshed(w, before, k);
        Broadcast(known.(live := Some(after), stale := ""), Diff(w.names, before, after))
  }

  /** An event that could not be appended: the session is marked and every subscriber is closed. */
  function MarkStale(slot: Slot, reason: string): Slot {
    slot.(stale := reason, subscribers := {})
  }

  /** A reader's captured boundary replaces a smaller known one. */
  function Capture(slot: Slot, captured: nat): Slot {
    if slot.source.None? || slot.source.value < captured then slot.(source := Some(captured)) else slot
  }

  predicate UpToDate(w: World, slot: Slot)
    requires slot.source.Some?
  {
    slot.live.Some? && slot.live.value.cursor == Cursor(w.generation, slot.source.value)
  }

  /** Hand out the snapshot, flagged when the session is marked stale. */
  function HandOut(slot: Slot, s: Snapshot): (Slot, Option<Snapshot>) {
    var state := if slot.stale != "" then Flagged(s, "true", slot.stale) else s;
    (slot.(live := Some(state)), Some(state))
  }

  function TakeSnapshot(w: World, durable: nat, slot: Slot, captured: nat): (Slot, Option<Snapshot>)
    requires durable <= |w.lines|
  {
    var known := Capture(slot, captured);
    if UpToDate(w, known) then HandOut(known, known.live.value)
    else
      var (value, cache) := Lookup(w, durable, known.cache, known.source.value);
      if value.None? then (known.(cache := cache), None)
      else HandOut(known.(cache := cache), value.value)
  }

  function Register(slot: Slot): Slot {
    slot.(next := slot.next + 1, subscribers := slot.subscribers + {slot.next}, buffers := slot.buffers[slot.next := []])
  }

  /** Register a subscriber and take its snapshot in one step. */
  function SubscribeSnapshot(w: World, durable: nat, slot: Slot, captured: nat): (Slot, Option<Snapshot>)
    requires durable <= |w.lines|
  {
    var (taken, value) := TakeSnapshot(w, durable, Register(slot), captured);
    (if value.None? then taken.(subscribers := taken.subscribers - {slot.next}) else taken, value)
  }

  function Unsubscribe(slot: Slot, id: nat): Slot {
    slot.(subscribers := slot.subscribers - {id})
  }
}
