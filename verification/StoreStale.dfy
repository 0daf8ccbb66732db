/**
  When the store says that a snapshot is out of date: exactly from an event that could not be appended
  until the next record that is folded in, in every run and whether or not the snapshot came from the cache.
 */
module StoreStale {
  import opened Prelude
  import opened Patch
  import opened Store
  import opened StoreRuns

  ghost predicate Unflagged(s: Snapshot) {
    Clear(s) == s
  }

  /** The reducer never flags a snapshot itself. */
  ghost predicate Steady(w: World) {
    Unflagged(w.empty) && forall s, e: Record :: Unflagged(s) ==> Unflagged(w.reduce(s, e))
  }

  /** Without a mark the live snapshot is not flagged, and the cache never is. */
  ghost predicate Honest(slot: Slot) {
    && (slot.live.Some? && slot.stale == "" ==> Unflagged(slot.live.value))
    && (forall o :: o in slot.cache ==> Unflagged(slot.cache[o]))
  }

  lemma {:induction false} ProjectionUnflagged(w: World, k: nat)
    requires Steady(w) && k <= |w.lines|
    ensures Unflagged(Projection(w, k))
  {
    if k > 0 {
      ProjectionUnflagged(w, k - 1);
      var cursor := CursorAt(w, k);
      var r := w.reduce(Projection(w, k - 1), Record(cursor, w.lines[k - 1].event));
      ClearCursor(r, cursor);
    } else {
      ClearCursor(w.empty, CursorAt(w, 0));
    }
  }

  lemma LookupUnflagged(w: World, durable: nat, cache: map<nat, Snapshot>, through: nat)
    requires Steady(w) && durable <= |w.lines| && forall o :: o in cache ==> Unflagged(cache[o])
    ensures var (value, after) := Lookup(w, durable, cache, through);
      && (value.Some? ==> Unflagged(value.value))
      && (forall o :: o in after ==> Unflagged(after[o]))
  {
    hide Unflagged, Steady;
    var b := Boundary(w, durable, CacheKey(w, durable, through));
    ProjectionUnflagged(w, if b.Some? then b.value else durable);
    ProjectionUnflagged(w, durable);
  }

  /** A snapshot handed out carries the mark and its reason exactly while the session is marked. */
  lemma SnapshotSaysStale(w: World, durable: nat, slot: Slot, captured: nat)
    requires Steady(w) && durable <= |w.lines| && Honest(slot)
    ensures var (after, value) := TakeSnapshot(w, durable, slot, captured);
      && Honest(after) && after.stale == slot.stale
      && (value.Some? ==>
          var s := value.value;
          s == if slot.stale == "" then Clear(s) else Flagged(s, "true", slot.stale))
  {
    var known := Capture(slot, captured);
    LookupUnflagged(w, durable, known.cache, known.source.value);
    var (value, cache) := Lookup(w, durable, known.cache, known.source.value);
    hide Lookup, Steady;
    if UpToDate(w, known) {
      FlaggedTwice(known.live.value, slot.stale);
    } else if value.Some? {
      FlaggedTwice(value.value, slot.stale);
    }
  }

  lemma FlaggedTwice(s: Snapshot, reason: string)
    ensures Flagged(Flagged(s, "true", reason), "true", reason) == Flagged(s, "true", reason)
  {
    assert Flagged(Flagged(s, "true", reason), "true", reason).fields == Flagged(s, "true", reason).fields;
  }

  lemma ApplyHonest(w: World, slot: Slot, k: nat)
    requires k < |w.lines| && Honest(slot) && Steady(w)
    ensures Honest(ApplyRecord(w, slot, k))
  {
    var before := Before(w, slot);
    ClearTwice(Advance(w, before, k));
    hide Diff, Lawful, WellFormed, Steady, Clear;
  }

  ghost predicate Reasoned(step: Step) {
    step.Mark? ==> step.reason != ""
  }

  lemma StepHonest(w: World, s: State, step: Step)
    requires Valid(w, s) && Enabled(w, s, step) && Reasoned(step) && Steady(w) && Honest(s.slot)
    ensures Honest(Next(w, s, step).slot)
  {
    hide SourceOk, LiveOk, CacheOk, BuffersOk, CopiesOk, Lawful, WellFormed, TakeSnapshot, ApplyRecord, Steady, Unflagged;
    match step
    case Publish => ApplyHonest(w, s.slot, s.applied);
    case Take(captured) => SnapshotSaysStale(w, s.durable, s.slot, Offset(w, captured));
    case Subscribe(captured) => SnapshotSaysStale(w, s.durable, Register(s.slot), Offset(w, captured));
    case Resync(_, captured) => SnapshotSaysStale(w, s.durable, s.slot, Offset(w, captured));
    case _ =>
  }

  /** In every run, so that what `SnapshotSaysStale` says holds of every snapshot that is handed out. */
  lemma {:induction false} EveryRunHonest(w: World, steps: seq<Step>)
    requires Lawful(w) && Steady(w) && forall i :: 0 <= i < |steps| ==> Reasoned(steps[i])
    ensures Honest(After(w, steps).slot)
  {
    hide Valid, Lawful, Steady, Honest, Next;
    if steps == [] {
      assert Honest(NewSlot) by { NewIsHonest(); }
    } else {
      var n := |steps| - 1;
      EveryRunHonest(w, steps[..n]);
      assert Reasoned(steps[n]);
      if Enabled(w, After(w, steps[..n]), steps[n]) {
        StepHonest(w, After(w, steps[..n]), steps[n]);
      }
    }
  }

  lemma NewIsHonest()
    ensures Honest(NewSlot)
  {
  }

  /** The mark lasts from the failed append, which also closes every subscriber, to the next record that changes the snapshot. */
  lemma MarkLasts(w: World, s: State, step: Step)
    requires Valid(w, s) && Enabled(w, s, step)
    ensures var t := Next(w, s, step);
      && (step.Mark? ==> t.slot.subscribers == {})
      && t.slot.stale == (if step.Mark? then step.reason
                          else if step.Publish? && t.slot.live != s.slot.live then ""
                          else s.slot.stale)
  {
    hide SourceOk, LiveOk, CacheOk, BuffersOk, CopiesOk, Lawful, WellFormed, ApplyRecord, TakeSnapshot;
    match step
    case Publish => PublishClears(w, s);
    case Take(captured) => TakeKeepsMark(w, s.durable, s.slot, Offset(w, captured));
    case Subscribe(captured) => TakeKeepsMark(w, s.durable, Register(s.slot), Offset(w, captured));
    case Resync(_, captured) => TakeKeepsMark(w, s.durable, s.slot, Offset(w, captured));
    case _ =>
  }

  lemma TakeKeepsMark(w: World, durable: nat, slot: Slot, captured: nat)
    requires durable <= |w.lines|
    ensures TakeSnapshot(w, durable, slot, captured).0.stale == slot.stale
  {
    hide Lookup;
  }

  lemma PublishClears(w: World, s: State)
    requires Valid(w, s) && s.applied < s.durable
    ensures var t := ApplyRecord(w, s.slot, s.applied); t.stale == if t.live != s.slot.live then "" else s.slot.stale
  {
    if s.slot.live.Some? {
      var k :| s.applied <= k <= s.durable && Matches(w, s.slot.live.value, k);
    }
    assert Refreshed(w, Before(w, s.slot), s.applied).cursor == CursorAt(w, s.applied + 1);
    hide Diff, Lawful, WellFormed, Refreshed, Matches, SourceOk, LiveOk, CacheOk, BuffersOk, CopiesOk, Projection;
  }
}
