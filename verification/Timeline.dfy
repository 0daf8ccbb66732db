/**
  The timeline of a session: every event since the session began or was last reset, except the streaming
  fragments of a model turn once that turn has answered or its run has stopped.
 */
module Timeline {
  import opened Prelude

  datatype Kind = SessionCreated | SessionReset | ModelDelta | ModelProgress | ModelResponse | RunStopped | Other(name: string)

  /** `body` and `raw` are the diagnostics; `turn` is the turn recorded in the event's data. */
  datatype Event = Event(kind: Kind, run: string, turn: int, data: string, body: Option<string>, raw: Option<string>)

  function Strip(e: Event): Event {
    e.(body := None, raw := None)
  }

  predicate Fragment(e: Event) {
    e.kind.ModelDelta? || e.kind.ModelProgress?
  }

  predicate Starts(e: Event) {
    e.kind.SessionCreated? || e.kind.SessionReset?
  }

  /** `e` ends the turn or the run that `f` belongs to. */
  predicate Ends(e: Event, f: Event) {
    (e.kind.ModelResponse? && f.run == e.run && f.turn == e.turn) || (e.kind.RunStopped? && f.run == e.run)
  }

  // ----- the reducer ----------------------------------------------------------------------------------------

  method DiscardStream(values: seq<Event>, run: string, turn: int) returns (out: seq<Event>)
    ensures out == Filter(values, (f: Event) => !(Fragment(f) && f.run == run && f.turn == turn))
  {
    ghost var keep := (f: Event) => !(Fragment(f) && f.run == run && f.turn == turn);
    out := [];
    for i := 0 to |values|
      invariant out == Filter(values[..i], keep)
    {
      FilterPush(values, i, keep);
      if Fragment(values[i]) && values[i].run == run && values[i].turn == turn {
        continue;
      }
      out := out + [values[i]];
    }
    assert values[..|values|] == values;
  }

  method DiscardRunStream(values: seq<Event>, run: string) returns (out: seq<Event>)
    ensures out == Filter(values, (f: Event) => !(Fragment(f) && f.run == run))
  {
    ghost var keep := (f: Event) => !(Fragment(f) && f.run == run);
    out := [];
    for i := 0 to |values|
      invariant out == Filter(values[..i], keep)
    {
      FilterPush(values, i, keep);
      if Fragment(values[i]) && values[i].run == run {
        continue;
      }
      out := out + [values[i]];
    }
    assert values[..|values|] == values;
  }

  lemma FilterPush(values: seq<Event>, i: nat, keep: Event -> bool)
    requires i < |values|
    ensures Filter(values[..i + 1], keep) == Filter(values[..i], keep) + if keep(values[i]) then [values[i]] else []
  {
    assert values[..i + 1] == values[..i] + [values[i]];
    FilterConcat(values[..i], [values[i]], keep);
    assert Filter([values[i]], keep) == if keep(values[i]) then [values[i]] else [];
  }

  /** The timeline after one more event. */
  function Next(timeline: seq<Event>, e: Event): seq<Event> {
    var t := (if Starts(e) then [] else timeline) + [Strip(e)];
    if e.kind.ModelResponse? then Filter(t, (f: Event) => !(Fragment(f) && f.run == e.run && f.turn == e.turn))
    else if e.kind.RunStopped? then Filter(t, (f: Event) => !(Fragment(f) && f.run == e.run))
    else t
  }

  /** The timeline after a whole log. */
  function Fold(log: seq<Event>): seq<Event> {
    if log == [] then [] else Next(Fold(log[..|log| - 1]), log[|log| - 1])
  }

  /** Fold a log record by record. */
  method Project(log: seq<Event>) returns (timeline: seq<Event>)
    ensures timeline == Fold(log)
  {
    timeline := [];
    for i := 0 to |log|
      invariant timeline == Fold(log[..i])
    {
      var e := log[i];
      if Starts(e) {
        timeline := [];
      }
      timeline := timeline + [Strip(e)];
      if e.kind.ModelResponse? {
        timeline := DiscardStream(timeline, e.run, e.turn);
      } else if e.kind.RunStopped? {
        timeline := DiscardRunStream(timeline, e.run);
      }
      assert log[..i + 1][..i] == log[..i];
    }
    assert log[..|log|] == log;
  }

  // ----- what the timeline is -------------------------------------------------------------------------------

  /** Nothing after position `i` starts the session over, and nothing after it ends the turn of a fragment there. */
  ghost predicate Survives(log: seq<Event>, i: nat)
    requires i < |log|
  {
    && (forall j :: i < j < |log| ==> !Starts(log[j]))
    && (Fragment(log[i]) ==> forall j :: i < j < |log| ==> !Ends(log[j], log[i]))
  }

  /** The surviving events among the first `n`, in order, without their diagnostics. */
  ghost function Surviving(log: seq<Event>, n: nat): seq<Event>
    requires n <= |log|
  {
    if n == 0 then [] else Surviving(log, n - 1) + if Survives(log, n - 1) then [Strip(log[n - 1])] else []
  }

  /** What a further event takes away of an earlier event. */
  predicate Outlives(f: Event, e: Event) {
    !Starts(e) && !(Fragment(f) && Ends(e, f))
  }

  lemma SurvivesOneMore(log: seq<Event>, e: Event, i: nat)
    requires i < |log|
    ensures Survives(log + [e], i) <==> Survives(log, i) && Outlives(log[i], e)
  {
    var more := log + [e];
    assert more[|log|] == e && more[i] == log[i];
    assert forall j :: i < j < |log| ==> more[j] == log[j];
  }

  lemma StripOutlives(f: Event, e: Event)
    ensures Outlives(Strip(f), e) <==> Outlives(f, e)
  {
  }

  /** The survivors of a longer log are the earlier survivors that the new event leaves. */
  lemma {:induction false} SurvivingOneMore(log: seq<Event>, e: Event, n: nat)
    requires n <= |log|
    ensures Surviving(log + [e], n) == Filter(Surviving(log, n), (f: Event) => Outlives(f, e))
  {
    if n > 0 {
      var keep := (f: Event) => Outlives(f, e);
      SurvivingOneMore(log, e, n - 1);
      SurvivesOneMore(log, e, n - 1);
      StripOutlives(log[n - 1], e);
      hide Survives, Outlives, Strip;
      assert (log + [e])[n - 1] == log[n - 1];
      var last := if Survives(log, n - 1) then [Strip(log[n - 1])] else [];
      FilterConcat(Surviving(log, n - 1), last, keep);
      assert Filter(last, keep) == if Survives(log, n - 1) && Outlives(log[n - 1], e) then last else [];
    }
  }

  /** One step of the reducer, whatever the event. */
  lemma NextKeeps(timeline: seq<Event>, e: Event)
    ensures Next(timeline, e) == Filter(timeline, (f: Event) => Outlives(f, e)) + [Strip(e)]
  {
    var keep := (f: Event) => Outlives(f, e);
    if e.kind.ModelResponse? || e.kind.RunStopped? {
      FilterConcat(timeline, [Strip(e)], keep);
      assert Filter([Strip(e)], keep) == [Strip(e)];
      var t := timeline + [Strip(e)];
      if e.kind.ModelResponse? {
        FilterAgree(t, (f: Event) => !(Fragment(f) && f.run == e.run && f.turn == e.turn), keep);
      } else {
        FilterAgree(t, (f: Event) => !(Fragment(f) && f.run == e.run), keep);
      }
    } else if Starts(e) {
      FilterNone(timeline, keep);
    } else {
      FilterAll(timeline, keep);
    }
  }

  /**
    After any log the timeline is exactly the stripped events since the last session.created or
    session.reset, that one included, except the streaming fragments later followed by a response of the
    same run and turn or by the stop of the same run.
   */
  lemma {:induction false} TimelineIsSurvivors(log: seq<Event>)
    ensures Fold(log) == Surviving(log, |log|)
  {
    if log != [] {
      var before, e := log[..|log| - 1], log[|log| - 1];
      assert log == before + [e];
      TimelineIsSurvivors(before);
      SurvivingOneMore(before, e, |before|);
      NextKeeps(Fold(before), e);
      assert Survives(log, |before|);
    }
  }

  /** The later event `e` neither starts the session over nor ends what `f` is a fragment of. */
  predicate NotAffected(f: Event, e: Event) {
    && !e.kind.SessionCreated? && !e.kind.SessionReset?
    && (f.kind.ModelDelta? || f.kind.ModelProgress? ==>
          && !(e.kind.ModelResponse? && e.run == f.run && e.turn == f.turn)
          && !(e.kind.RunStopped? && e.run == f.run))
  }

  ghost predicate Stays(log: seq<Event>, i: nat)
    requires i < |log|
  {
    forall j :: i < j < |log| ==> NotAffected(log[i], log[j])
  }

  /** An entry shows the event without its diagnostics. */
  predicate Shows(e: Event, f: Event) {
    e.kind == f.kind && e.run == f.run && e.turn == f.turn && e.data == f.data && e.body == None && e.raw == None
  }

  /** Each entry shows one of the first `n` events of the log, in log order, and an event is shown exactly if it stays. */
  ghost predicate Lists(timeline: seq<Event>, log: seq<Event>, n: nat, from: seq<nat>)
    requires n <= |log|
  {
    && |from| == |timeline|
    && (forall k :: 0 <= k < |from| ==> from[k] < n && Shows(timeline[k], log[from[k]]))
    && (forall k, l :: 0 <= k < l < |from| ==> from[k] < from[l])
    && (forall i :: 0 <= i < n ==> (i in from <==> Stays(log, i)))
  }

  lemma StaysSurvives(log: seq<Event>, i: nat)
    requires i < |log|
    ensures Survives(log, i) <==> Stays(log, i)
  {
    forall j | i < j < |log|
      ensures !Starts(log[j]) && (Fragment(log[i]) ==> !Ends(log[j], log[i])) <==> NotAffected(log[i], log[j])
    {
    }
  }

  lemma ListsOneMore(timeline: seq<Event>, log: seq<Event>, n: nat, from: seq<nat>)
    requires n < |log| && Lists(timeline, log, n, from)
    ensures if Stays(log, n) then Lists(timeline + [Strip(log[n])], log, n + 1, from + [n]) else Lists(timeline, log, n + 1, from)
  {
    hide Stays;
    if Stays(log, n) {
      assert forall i :: 0 <= i < n + 1 ==> (i in from + [n] <==> i in from || i == n);
    }
  }

  lemma {:induction false} SurvivingLists(log: seq<Event>, n: nat) returns (from: seq<nat>)
    requires n <= |log|
    ensures Lists(Surviving(log, n), log, n, from)
  {
    hide Stays, Survives;
    from := [];
    if n > 0 {
      from := SurvivingLists(log, n - 1);
      StaysSurvives(log, n - 1);
      ListsOneMore(Surviving(log, n - 1), log, n - 1, from);
      hide Lists;
      if Stays(log, n - 1) {
        from := from + [n - 1];
      } else {
        assert Surviving(log, n - 1) + [] == Surviving(log, n - 1);
      }
    }
  }

  /** After any log: which of its events the timeline shows, in which order, and what it shows of them. */
  lemma TimelineLists(log: seq<Event>) returns (from: seq<nat>)
    ensures Lists(Fold(log), log, |log|, from)
  {
    TimelineIsSurvivors(log);
    from := SurvivingLists(log, |log|);
  }
}
