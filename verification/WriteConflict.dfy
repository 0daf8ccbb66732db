/**
  Optimistic conflict detection between sessions that write the same files: who wrote a path last, and
  when each session last saw it.
 */
module WriteConflict {
  import opened Prelude

  /** A file tool call.  A read may go through a root other than the one the session writes under. */
  datatype Op = See(session: string, root: string, file: string) | Write(session: string, file: string)

  /**
    `home` is the root a session writes under, `rel` names a file relative to a root, and `now` is the
    clock: call number `i` reads it at ticks `2 * i` and `2 * i + 1`.
   */
  datatype Env = Env(home: string -> string, rel: (string, string) -> string, now: nat -> int)

  ghost predicate Lawful(env: Env) {
    && (forall root, f, g :: env.rel(root, f) == env.rel(root, g) ==> f == g)
    && (forall i: nat, j: nat :: i < j ==> env.now(i) < env.now(j))
  }

  datatype Stamp = Stamp(session: string, at: int)

  /** `writers` by root and relative path, `seen` by session and relative path. */
  datatype State = State(writers: map<string, map<string, Stamp>>, seen: map<string, map<string, int>>)

  function Get<V>(m: map<string, map<string, V>>, a: string, b: string): Option<V> {
    if a in m && b in m[a] then Some(m[a][b]) else None
  }

  function Put<V>(m: map<string, map<string, V>>, a: string, b: string, v: V): map<string, map<string, V>> {
    m[a := (if a in m then m[a] else map[])[b := v]]
  }

  lemma GetPut<V>(m: map<string, map<string, V>>, a: string, b: string, v: V, c: string, d: string)
    ensures Get(Put(m, a, b, v), c, d) == if c == a && d == b then Some(v) else Get(m, c, d)
  {
  }

  /** A write is refused when another session wrote the path after this one last saw it. */
  function Allowed(st: State, session: string, root: string, rel: string): bool {
    var record, seen := Get(st.writers, root, rel), Get(st.seen, session, rel);
    !(record.Some? && record.value.session != session && (seen.None? || record.value.at > seen.value))
  }

  function Touched(st: State, session: string, rel: string, at: int): State {
    st.(seen := Put(st.seen, session, rel, at))
  }

  /** The session has seen what it wrote, and is the last writer. */
  function Recorded(st: State, session: string, root: string, rel: string, touch: int, at: int): State {
    Touched(st, session, rel, touch).(writers := Put(st.writers, root, rel, Stamp(session, at)))
  }

  /** A whole tool call, as one step. */
  function Perform(env: Env, st: State, op: Op, i: nat): State {
    match op
    case See(session, root, file) => Touched(st, session, env.rel(root, file), env.now(2 * i))
    case Write(session, file) =>
      var root := env.home(session);
      var rel := env.rel(root, file);
      if Allowed(st, session, root, rel) then Recorded(st, session, root, rel, env.now(2 * i), env.now(2 * i + 1)) else st
  }

  // ----- runs -----------------------------------------------------------------------------------------------------

  function After(env: Env, ops: seq<Op>): State {
    if ops == [] then State(map[], map[])
    else Perform(env, After(env, ops[..|ops| - 1]), ops[|ops| - 1], |ops| - 1)
  }

  /** Call `i` is a write and was not refused. */
  predicate Accepted(env: Env, ops: seq<Op>, i: nat)
    requires i < |ops|
  {
    ops[i].Write?
    && var root := env.home(ops[i].session);
       Allowed(After(env, ops[..i]), ops[i].session, root, env.rel(root, ops[i].file))
  }

  /** Call `i` is an accepted write recorded under this root and relative path. */
  predicate WritesKey(env: Env, ops: seq<Op>, i: nat, root: string, rel: string)
    requires i < |ops|
  {
    Accepted(env, ops, i) && env.home(ops[i].session) == root && env.rel(root, ops[i].file) == rel
  }

  /** After call `i` the session counts as having seen this relative path. */
  predicate Touches(env: Env, ops: seq<Op>, i: nat, session: string, rel: string)
    requires i < |ops|
  {
    ops[i].session == session
    && if ops[i].See? then env.rel(ops[i].root, ops[i].file) == rel
       else Accepted(env, ops, i) && env.rel(env.home(session), ops[i].file) == rel
  }

  /** The last of the first `n` calls that wrote the key. */
  function LastWrite(env: Env, ops: seq<Op>, n: nat, root: string, rel: string): (r: Option<nat>)
    requires n <= |ops|
    ensures r.Some? ==> r.value < n && WritesKey(env, ops, r.value, root, rel)
  {
    if n == 0 then None
    else if WritesKey(env, ops, n - 1, root, rel) then Some(n - 1)
    else LastWrite(env, ops, n - 1, root, rel)
  }

  function LastTouch(env: Env, ops: seq<Op>, n: nat, session: string, rel: string): (r: Option<nat>)
    requires n <= |ops|
    ensures r.Some? ==> r.value < n && Touches(env, ops, r.value, session, rel)
  {
    if n == 0 then None
    else if Touches(env, ops, n - 1, session, rel) then Some(n - 1)
    else LastTouch(env, ops, n - 1, session, rel)
  }

  lemma {:induction false} NoLaterWrite(env: Env, ops: seq<Op>, n: nat, root: string, rel: string, k: nat)
    requires n <= |ops| && k < n && (LastWrite(env, ops, n, root, rel).Some? ==> k > LastWrite(env, ops, n, root, rel).value)
    ensures !WritesKey(env, ops, k, root, rel)
  {
    if k < n - 1 {
      NoLaterWrite(env, ops, n - 1, root, rel, k);
    }
  }

  lemma {:induction false} NoLaterTouch(env: Env, ops: seq<Op>, n: nat, session: string, rel: string, k: nat)
    requires n <= |ops| && k < n && (LastTouch(env, ops, n, session, rel).Some? ==> k > LastTouch(env, ops, n, session, rel).value)
    ensures !Touches(env, ops, k, session, rel)
  {
    if k < n - 1 {
      NoLaterTouch(env, ops, n - 1, session, rel, k);
    }
  }

  function WriteStamp(env: Env, ops: seq<Op>, w: Option<nat>): Option<Stamp>
    requires w.Some? ==> w.value < |ops|
  {
    if w.Some? then Some(Stamp(ops[w.value].session, env.now(2 * w.value + 1))) else None
  }

  function TouchStamp(env: Env, t: Option<nat>): Option<int> {
    if t.Some? then Some(env.now(2 * t.value)) else None
  }

  /** What one call records, and what it touches. */
  lemma OneMoreCall(env: Env, ops: seq<Op>, i: nat)
    requires i < |ops|
    ensures var st := After(env, ops[..i]); var op := ops[i]; var root := if op.See? then op.root else env.home(op.session);
      After(env, ops[..i + 1]).seen
      == if op.See? || Accepted(env, ops, i) then Put(st.seen, op.session, env.rel(root, op.file), env.now(2 * i)) else st.seen
    ensures var st := After(env, ops[..i]); var op := ops[i]; var home := env.home(op.session);
      After(env, ops[..i + 1]).writers
      == if Accepted(env, ops, i) then Put(st.writers, home, env.rel(home, op.file), Stamp(op.session, env.now(2 * i + 1))) else st.writers
  {
    assert ops[..i + 1][..i] == ops[..i];
  }

  /** The maps hold the stamp of the last write of every key. */
  lemma {:induction false} WritersTrackCalls(env: Env, ops: seq<Op>, n: nat, root: string, rel: string)
    requires n <= |ops|
    ensures Get(After(env, ops[..n]).writers, root, rel) == WriteStamp(env, ops, LastWrite(env, ops, n, root, rel))
  {
    if n > 0 {
      var i := n - 1;
      assert LastWrite(env, ops, n, root, rel) == if WritesKey(env, ops, i, root, rel) then Some(i) else LastWrite(env, ops, i, root, rel);
      hide Get, Put, After, Accepted, LastWrite;
      WritersTrackCalls(env, ops, i, root, rel);
      OneMoreCall(env, ops, i);
      var home := env.home(ops[i].session);
      GetPut(After(env, ops[..i]).writers, home, env.rel(home, ops[i].file), Stamp(ops[i].session, env.now(2 * i + 1)), root, rel);
    } else {
      assert ops[..0] == [];
    }
  }

  /** And of the last touch. */
  lemma {:induction false} SeenTracksCalls(env: Env, ops: seq<Op>, n: nat, session: string, rel: string)
    requires n <= |ops|
    ensures Get(After(env, ops[..n]).seen, session, rel) == TouchStamp(env, LastTouch(env, ops, n, session, rel))
  {
    if n > 0 {
      var i := n - 1;
      assert LastTouch(env, ops, n, session, rel) == if Touches(env, ops, i, session, rel) then Some(i) else LastTouch(env, ops, i, session, rel);
      hide Get, Put, After, Accepted, LastTouch;
      SeenTracksCalls(env, ops, i, session, rel);
      OneMoreCall(env, ops, i);
      var root := if ops[i].See? then ops[i].root else env.home(ops[i].session);
      GetPut(After(env, ops[..i]).seen, ops[i].session, env.rel(root, ops[i].file), env.now(2 * i), session, rel);
    } else {
      assert ops[..0] == [];
    }
  }

  /** The session counts as having seen the path after call `j`. */
  ghost predicate TouchedSince(env: Env, ops: seq<Op>, j: nat, i: nat, session: string, rel: string)
    requires i <= |ops|
  {
    exists k :: j < k < i && Touches(env, ops, k, session, rel)
  }

  /** Call `j` is the write that call `i` would replace under its own key. */
  ghost predicate LastUnder(env: Env, ops: seq<Op>, j: nat, i: nat, root: string, rel: string)
    requires i <= |ops|
  {
    j < i && WritesKey(env, ops, j, root, rel) && forall k :: j < k < i ==> !WritesKey(env, ops, k, root, rel)
  }

  /**
    A write is accepted if and only if the last recorded write under its key is the session's own, or
    there is none, or the session saw that path afterwards.
   */
  lemma AcceptedIff(env: Env, ops: seq<Op>, i: nat)
    requires Lawful(env) && i < |ops| && ops[i].Write?
    ensures var s := ops[i].session; var root := env.home(s); var rel := env.rel(root, ops[i].file);
      Accepted(env, ops, i)
      <==> forall j :: 0 <= j < i && LastUnder(env, ops, j, i, root, rel) && ops[j].session != s ==> TouchedSince(env, ops, j, i, s, rel)
  {
    var s := ops[i].session;
    var root := env.home(s);
    var rel := env.rel(root, ops[i].file);
    WritersTrackCalls(env, ops, i, root, rel);
    SeenTracksCalls(env, ops, i, s, rel);
    var w, t := LastWrite(env, ops, i, root, rel), LastTouch(env, ops, i, s, rel);
    forall k | 0 <= k < i && (w.Some? ==> k > w.value) ensures !WritesKey(env, ops, k, root, rel) {
      NoLaterWrite(env, ops, i, root, rel, k);
    }
    forall k | 0 <= k < i && (t.Some? ==> k > t.value) ensures !Touches(env, ops, k, s, rel) {
      NoLaterTouch(env, ops, i, s, rel, k);
    }
    if w.Some? {
      assert LastUnder(env, ops, w.value, i, root, rel);
      forall j | 0 <= j < i && LastUnder(env, ops, j, i, root, rel) ensures j == w.value { }
      if t.Some? && ops[w.value].session != s {
        assert t.value != w.value;
        assert env.now(2 * w.value + 1) > env.now(2 * t.value) <==> w.value > t.value by {
          Ticks(env, 2 * w.value + 1, 2 * t.value);
        }
      }
    }
  }

  lemma Ticks(env: Env, i: nat, j: nat)
    requires Lawful(env) && i != j
    ensures env.now(i) > env.now(j) <==> i > j
  {
    if i < j {
      assert env.now(i) < env.now(j);
    } else {
      assert env.now(j) < env.now(i);
    }
  }

  // ----- what a session can lose -------------------------------------------------------------------------------------

  /** Call `j` is the last accepted write of this file by anyone before call `i`. */
  ghost predicate LastOfFile(env: Env, ops: seq<Op>, j: nat, i: nat, file: string)
    requires i <= |ops|
  {
    && j < i && Accepted(env, ops, j) && ops[j].file == file
    && forall k :: j < k < i && Accepted(env, ops, k) ==> ops[k].file != file
  }

  /** The session read this very file after call `j`. */
  ghost predicate ReadSince(ops: seq<Op>, j: nat, i: nat, session: string, file: string)
    requires i <= |ops|
  {
    exists k :: j < k < i && ops[k].See? && ops[k].session == session && ops[k].file == file
  }

  /** After call `j` the session read another file that goes by the same relative name under another root. */
  ghost predicate NamesakeSince(env: Env, ops: seq<Op>, j: nat, i: nat, session: string, file: string)
    requires i <= |ops|
  {
    exists k :: j < k < i && ops[k].See? && ops[k].session == session && ops[k].file != file
      && env.rel(ops[k].root, ops[k].file) == env.rel(env.home(session), file)
  }

  /** Whatever counts as having seen the file since another session's write is a read of it or of a namesake; a namesake always counts. */
  lemma TouchIsRead(env: Env, ops: seq<Op>, j: nat, i: nat)
    requires i < |ops| && ops[i].Write? && Lawful(env)
    requires LastOfFile(env, ops, j, i, ops[i].file) && ops[j].session != ops[i].session
    ensures var s := ops[i].session; var file := ops[i].file; var rel := env.rel(env.home(s), file);
      && (TouchedSince(env, ops, j, i, s, rel) ==> ReadSince(ops, j, i, s, file) || NamesakeSince(env, ops, j, i, s, file))
      && (NamesakeSince(env, ops, j, i, s, file) ==> TouchedSince(env, ops, j, i, s, rel))
  {
    hide Accepted;
    var s := ops[i].session;
    var file := ops[i].file;
    var rel := env.rel(env.home(s), file);
    if NamesakeSince(env, ops, j, i, s, file) {
      var k :| j < k < i && ops[k].See? && ops[k].session == s && ops[k].file != file && env.rel(ops[k].root, ops[k].file) == rel;
      assert Touches(env, ops, k, s, rel);
    }
  }

  /**
    Exactly when a write that would replace another session's unread write is refused: among sessions
    that write under the same root, unless the session has since read a namesake of the file.
   */
  lemma UnreadWriteRefusedIff(env: Env, ops: seq<Op>, j: nat, i: nat)
    requires Lawful(env) && i < |ops| && ops[i].Write?
    requires LastOfFile(env, ops, j, i, ops[i].file) && ops[j].session != ops[i].session
    requires env.home(ops[j].session) == env.home(ops[i].session)
    requires !ReadSince(ops, j, i, ops[i].session, ops[i].file)
    ensures !Accepted(env, ops, i) <==> !NamesakeSince(env, ops, j, i, ops[i].session, ops[i].file)
  {
    hide Accepted;
    var s := ops[i].session;
    var root := env.home(s);
    var rel := env.rel(root, ops[i].file);
    AcceptedIff(env, ops, i);
    TouchIsRead(env, ops, j, i);
    assert LastUnder(env, ops, j, i, root, rel);
    forall k | 0 <= k < i && LastUnder(env, ops, k, i, root, rel) ensures k == j { }
  }

  /** With one root and no namesakes, a successful write never replaces another session's write that was not read since. */
  lemma NeverReplacesUnread(env: Env, ops: seq<Op>, j: nat, i: nat)
    requires Lawful(env) && i < |ops| && Accepted(env, ops, i)
    requires LastOfFile(env, ops, j, i, ops[i].file) && ops[j].session != ops[i].session
    requires env.home(ops[j].session) == env.home(ops[i].session)
    requires !NamesakeSince(env, ops, j, i, ops[i].session, ops[i].file)
    ensures ReadSince(ops, j, i, ops[i].session, ops[i].file)
  {
    if !ReadSince(ops, j, i, ops[i].session, ops[i].file) {
      UnreadWriteRefusedIff(env, ops, j, i);
    }
  }

  // ----- where the detection does not reach --------------------------------------------------------------------------

  /** Nothing is refused while nothing is recorded under the key. */
  lemma FirstWriteAccepted(env: Env, ops: seq<Op>, i: nat)
    requires Lawful(env) && i < |ops| && ops[i].Write?
    requires forall k :: 0 <= k < i && ops[k].Write? ==> env.home(ops[k].session) != env.home(ops[i].session)
    ensures Accepted(env, ops, i)
  {
    AcceptedIff(env, ops, i);
  }

  /** Reading a namesake, such as the same name in a plan repository, hides another session's write for every such pair of files. */
  lemma NamesakeHidesAWrite(env: Env, s: string, t: string, file: string, root: string, namesake: string)
    requires Lawful(env) && s != t && env.home(s) == env.home(t)
    requires namesake != file && env.rel(root, namesake) == env.rel(env.home(s), file)
    ensures var ops := [Write(t, file), See(s, root, namesake), Write(s, file)];
      Accepted(env, ops, 2) && LastOfFile(env, ops, 0, 2, file) && !ReadSince(ops, 0, 2, s, file)
  {
    hide Accepted;
    var ops := [Write(t, file), See(s, root, namesake), Write(s, file)];
    FirstWriteAccepted(env, ops, 0);
    assert !Accepted(env, ops, 1) by { NotAWrite(env, ops, 1); }
    assert LastOfFile(env, ops, 0, 2, file);
    assert NamesakeSince(env, ops, 0, 2, s, file) by { assert ops[1].See?; }
    UnreadWriteRefusedIff(env, ops, 0, 2);
  }

  lemma NotAWrite(env: Env, ops: seq<Op>, i: nat)
    requires i < |ops| && ops[i].See?
    ensures !Accepted(env, ops, i)
  {
  }

  /** Sessions that write under different roots never see each other's records, even for the same file. */
  lemma OtherRootIsNotSeen(env: Env, s: string, t: string, file: string)
    requires Lawful(env) && env.home(s) != env.home(t)
    ensures var ops := [Write(t, file), Write(s, file)];
      Accepted(env, ops, 1) && LastOfFile(env, ops, 0, 1, file) && !ReadSince(ops, 0, 1, s, file)
  {
    hide Accepted;
    var ops := [Write(t, file), Write(s, file)];
    FirstWriteAccepted(env, ops, 0);
    FirstWriteAccepted(env, ops, 1);
  }

  // ----- the object --------------------------------------------------------------------------------------------------

  lemma AfterPush(env: Env, ops: seq<Op>, op: Op)
    ensures After(env, ops + [op]) == Perform(env, After(env, ops), op, |ops|)
    ensures op.Write? ==>
      (Accepted(env, ops + [op], |ops|) <==> Allowed(After(env, ops), op.session, env.home(op.session), env.rel(env.home(op.session), op.file)))
  {
    assert (ops + [op])[..|ops|] == ops;
  }

  /**
    The coordinator with the registry of writers and the sessions' last-seen times.  It is always where the
    calls made so far have brought it, so `AcceptedIff` and what follows from it say what its answers mean.
   */
  class FileCoordinator {
    const env: Env
    var lastWriter: map<string, map<string, Stamp>>
    var lastSeen: map<string, map<string, int>>
    var calls: nat  // tells the clock readings of one call from those of the next
    ghost var ops: seq<Op>  // the calls made so far

    ghost function View(): State
      reads this
    {
      State(lastWriter, lastSeen)
    }

    ghost predicate Valid()
      reads this
    {
      Lawful(env) && calls == |ops| && View() == After(env, ops)
    }

    constructor (env: Env)
      requires Lawful(env)
      ensures this.env == env && Valid() && ops == []
    {
      this.env := env;
      lastWriter, lastSeen, calls, ops := map[], map[], 0, [];
    }

    /** Refused when another session is the recorded writer and this one has not seen the path since. */
    method Check(session: string, root: string, rel: string) returns (ok: bool)
      ensures ok == Allowed(View(), session, root, rel)
    {
      if root in lastWriter && rel in lastWriter[root] {
        var record := lastWriter[root][rel];
        var hasSeen := session in lastSeen && rel in lastSeen[session];
        if record.session != session && (!hasSeen || record.at > lastSeen[session][rel]) {
          return false;
        }
      }
      return true;
    }

    method Touch(session: string, rel: string, at: int)
      modifies this`lastSeen
      ensures View() == Touched(old(View()), session, rel, at)
    {
      var paths := if session in lastSeen then lastSeen[session] else map[];
      lastSeen := lastSeen[session := paths[rel := at]];
    }

    method RecordWrite(session: string, root: string, rel: string, touch: int, at: int)
      modifies this`lastSeen, this`lastWriter
      ensures View() == Recorded(old(View()), session, root, rel, touch, at)
    {
      Touch(session, rel, touch);
      if root !in lastWriter {
        lastWriter := lastWriter[root := map[]];
      }
      lastWriter := lastWriter[root := lastWriter[root][rel := Stamp(session, at)]];
    }

    /**
      One tool call.  A write goes through if and only if the last write recorded under its key is the
      session's own, or absent, or was followed by a touch of that path by the session.
     */
    method Call(op: Op) returns (ok: bool)
      requires Valid()
      modifies this
      ensures Valid() && ops == old(ops) + [op]
      ensures op.Write? ==>
        var n := |old(ops)|; var root := env.home(op.session); var rel := env.rel(root, op.file);
        && (ok <==> Accepted(env, ops, n))
        && (ok <==> forall j :: 0 <= j < n && LastUnder(env, ops, j, n, root, rel) && ops[j].session != op.session ==>
              TouchedSince(env, ops, j, n, op.session, rel))
    {
      hide After, Accepted, LastUnder, TouchedSince, Allowed, Lawful;
      AfterPush(env, ops, op);
      if op.Write? {
        AcceptedIff(env, ops + [op], |ops|);
      }
      match op {
        case See(session, root, file) =>
          Touch(session, env.rel(root, file), env.now(2 * calls));
          ok := true;
        case Write(session, file) =>
          var root := env.home(session);
          var rel := env.rel(root, file);
          ok := Check(session, root, rel);
          if ok {
            RecordWrite(session, root, rel, env.now(2 * calls), env.now(2 * calls + 1));
          }
      }
      calls := calls + 1;
      ops := ops + [op];
    }
  }
}
