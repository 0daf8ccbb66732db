/**
  The objects behind the projection store: the snapshot cache, and the store itself with its subscribers.
  Every public method is one step of the store's state machine, so the object is always where its steps
  have brought it, and everything proved of every run holds of it.
 */
module LiveStore {
  import opened Prelude
  import opened Patch
  import opened Store
  import opened StoreRuns

  class SnapshotCache {
    var entries: map<nat, Snapshot>

    constructor ()
      ensures entries == map[]
    {
      entries := map[];
    }

    /** From the cache, or projected and remembered. */
    method ProjectFile(w: World, durable: nat, through: nat) returns (r: Option<Snapshot>)
      requires durable <= |w.lines|
      modifies this
      ensures (r, entries) == Lookup(w, durable, old(entries), through)
    {
      var key := if through == 0 then Offset(w, durable) else through;
      if key in entries {
        return Some(entries[key]);
      }
      r := ProjectLog(w, durable, key);
      if r.Some? {
        entries := entries[key := r.value];
      }
    }
  }

  /** `durable` and `applied` are the length of the log file and the position of the event bus. */
  class ProjectionStore {
    const w: World
    const cache: SnapshotCache
    var durable: nat
    var applied: nat
    var source: Option<nat>
    var live: Option<Snapshot>
    var stale: string
    var subscribers: set<nat>
    var buffers: map<nat, seq<Patch>>
    var next: nat
    ghost var steps: seq<Step>

    ghost function View(): Slot
      reads this, cache
    {
      Slot(source, live, stale, cache.entries, subscribers, buffers, next)
    }

    ghost predicate Valid()
      reads this, cache
    {
      && Lawful(w)
      && var s := After(w, steps); View() == s.slot && durable == s.durable && applied == s.applied
    }

    constructor (w: World)
      requires Lawful(w)
      ensures this.w == w && Valid() && steps == [] && fresh(cache)
    {
      this.w := w;
      cache := new SnapshotCache();
      durable, applied, steps := 0, 0, [];
      source, live, stale, subscribers, buffers, next := None, None, "", {}, map[], 0;
    }

    /** What every store in use satisfies: its snapshot, its cache, what it has sent and what clients made of that. */
    lemma AlwaysHolds()
      requires Valid()
      ensures var s := After(w, steps);
        LiveOk(w, s) && CacheOk(w, s) && BuffersOk(w, s) && CopiesOk(w, s) && s.slot == View()
    {
    }

    /** The step was enabled, and this is where it leads. */
    lemma Stepped(before: seq<Step>, step: Step)
      requires Lawful(w) && Enabled(w, After(w, before), step)
      ensures After(w, before + [step]) == Next(w, After(w, before), step)
    {
      AfterPush(w, before, step);
    }

    /** The log writer appended a record. */
    method LogWritten()
      requires Valid() && durable < |w.lines|
      modifies this`durable, this`steps
      ensures Valid() && steps == old(steps) + [Write]
    {
      Stepped(steps, Write);
      hide After, Lawful;
      durable := durable + 1;
      steps := steps + [Write];
    }

    /** The next record arrives from the event bus. */
    method Apply()
      requires Valid() && applied < durable
      modifies this
      ensures Valid() && steps == old(steps) + [Publish]
    {
      Stepped(steps, Publish);
      hide After, Lawful;
      FoldRecord(applied);
      applied := applied + 1;
      steps := steps + [Publish];
    }

    method FoldRecord(k: nat)
      requires k < |w.lines| && subscribers <= buffers.Keys
      modifies this`source, this`live, this`stale, this`subscribers, this`buffers
      ensures View() == ApplyRecord(w, old(View()), k)
    {
      source := Some(Offset(w, k + 1));
      if live.None? {
        if subscribers == {} || !w.created(w.lines[k].event) {
          return;
        }
        live := Some(w.empty);
      }
      var before := live.value;
      if before.cursor.generation == w.generation && before.cursor.offset >= Offset(w, k + 1) {
        return;
      }
      var after := Refreshed(w, before, k);
      live, stale := Some(after), "";
      Send(Diff(w.names, before, after));
    }

    /** Offer the patch to every subscriber, closing those whose channel is full. */
    method Send(patch: Patch)
      requires subscribers <= buffers.Keys
      modifies this`subscribers, this`buffers
      ensures View() == Broadcast(old(View()), patch)
    {
      ghost var roomy := Roomy(subscribers, buffers);
      var left := subscribers;
      while left != {}
        invariant left <= old(subscribers) && buffers.Keys == old(buffers.Keys)
        invariant subscribers == left + roomy
        invariant forall id :: id in buffers ==>
          buffers[id] == if id !in left && id in roomy then old(buffers)[id] + [patch] else old(buffers)[id]
        decreases left
      {
        var id :| id in left;
        if |buffers[id]| < Capacity {
          buffers := buffers[id := buffers[id] + [patch]];
        } else {
          subscribers := subscribers - {id};
        }
        left := left - {id};
      }
    }

    /** An event could not be appended: the session is marked and every subscriber is closed. */
    method MarkStaleBecause(reason: string)
      requires Valid()
      modifies this`stale, this`subscribers, this`steps
      ensures Valid() && steps == old(steps) + [Mark(reason)]
    {
      Stepped(steps, Mark(reason));
      hide After, Lawful;
      stale, subscribers := reason, {};
      steps := steps + [Mark(reason)];
    }

    /** A reader who captured a durable boundary is never refused and gets a projection not before it, nor before the applied records. */
    method TakeSnapshotAt(captured: nat) returns (r: Snapshot)
      requires Valid() && captured <= durable
      modifies this, cache
      ensures Valid() && steps == old(steps) + [Take(captured)]
      ensures live == Some(r) && exists k :: applied <= k <= durable && captured <= k && Matches(w, r, k)
    {
      Stepped(steps, Take(captured));
      SnapshotIsProjection(w, After(w, steps), captured);
      hide After, Lawful, Matches, TakeSnapshot;
      var value := SnapshotLocked(Offset(w, captured));
      r := value.value;
      steps := steps + [Take(captured)];
    }

    method SnapshotLocked(captured: nat) returns (r: Option<Snapshot>)
      requires durable <= |w.lines|
      modifies this`source, this`live, cache
      ensures (View(), r) == TakeSnapshot(w, durable, old(View()), captured)
    {
      if source.None? || source.value < captured {
        source := Some(captured);
      }
      var state: Snapshot;
      if live.None? || live.value.cursor != Cursor(w.generation, source.value) {
        var projected := cache.ProjectFile(w, durable, source.value);
        if projected.None? {
          return None;
        }
        state := projected.value;
      } else {
        state := live.value;
      }
      if stale != "" {
        state := Flagged(state, "true", stale);
      }
      live := Some(state);
      return Some(state);
    }

    /** A new subscriber and its snapshot, in one step: the client starts at a projection not before what it captured. */
    method SubscribeAt(captured: nat) returns (id: nat, r: Option<Snapshot>)
      requires Valid() && captured <= durable
      modifies this, cache
      ensures Valid() && steps == old(steps) + [Subscribe(captured)]
      ensures id == old(next) && id in subscribers && id in buffers && buffers[id] == []
      ensures r.Some? && live == r && exists k :: applied <= k <= durable && captured <= k && Matches(w, r.value, k)
    {
      SubscribeGives(w, After(w, steps), captured);
      hide After, Lawful, SubscribeSnapshot, Matches, Next, Offset;
      id := next;
      r := SubscribeStep(captured);
    }

    method SubscribeStep(captured: nat) returns (r: Option<Snapshot>)
      requires Valid() && captured <= durable
      modifies this, cache
      ensures Valid() && steps == old(steps) + [Subscribe(captured)]
      ensures durable == old(durable) && applied == old(applied)
      ensures (View(), r) == SubscribeSnapshot(w, durable, old(View()), Offset(w, captured))
    {
      Stepped(steps, Subscribe(captured));
      SubscribeNext(w, After(w, steps), captured);
      hide After, Lawful, SubscribeSnapshot, Next, Offset;
      r := SubscribeLocked(Offset(w, captured));
      steps := steps + [Subscribe(captured)];
    }

    /** Undone when the projection fails. */
    method SubscribeLocked(captured: nat) returns (r: Option<Snapshot>)
      requires durable <= |w.lines|
      modifies this`next, this`subscribers, this`buffers, this`source, this`live, cache
      ensures (View(), r) == SubscribeSnapshot(w, durable, old(View()), captured)
    {
      hide TakeSnapshot;
      var id := next;
      next := next + 1;
      subscribers := subscribers + {id};
      buffers := buffers[id := []];
      assert View() == Register(old(View()));
      r := SnapshotLocked(captured);
      if r.None? {
        subscribers := subscribers - {id};
      }
    }

    /** A client subscribes whose captured sources do not list this session. */
    method SubscribeElsewhere() returns (id: nat)
      requires Valid()
      modifies this`next, this`subscribers, this`buffers, this`steps
      ensures Valid() && steps == old(steps) + [Join]
      ensures id == old(next) && id in subscribers && id in buffers && buffers[id] == []
    {
      Stepped(steps, Join);
      hide After, Lawful;
      id := next;
      next := next + 1;
      subscribers := subscribers + {id};
      buffers := buffers[id := []];
      steps := steps + [Join];
    }

    /** A client takes the next patch from its channel: it leads to the projection at the patch's cursor. */
    method TakePatch(id: nat) returns (patch: Patch)
      requires Valid() && id in buffers && buffers[id] != []
      modifies this`buffers, this`steps
      ensures Valid() && steps == old(steps) + [Receive(id)]
      ensures exists k :: 0 < k <= applied && LeadsTo(w, patch, k)
    {
      Stepped(steps, Receive(id));
      assert PatchOk(w, buffers[id][0], applied);
      hide After, Lawful, LeadsTo;
      patch := buffers[id][0];
      buffers := buffers[id := buffers[id][1..]];
      steps := steps + [Receive(id)];
    }

    method Unsubscribed(id: nat)
      requires Valid()
      modifies this`subscribers, this`steps
      ensures Valid() && steps == old(steps) + [Close(id)]
    {
      Stepped(steps, Close(id));
      hide After, Lawful;
      subscribers := subscribers - {id};
      steps := steps + [Close(id)];
    }
  }
}
