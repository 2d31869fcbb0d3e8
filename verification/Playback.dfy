/** Playback: the state rebuilt from the stored events alone (src/testbed_kernel/playback.py). */
module Playbacks {
  import opened Wrappers
  import opened Contracts
  import opened KernelState
  import opened Sorting
  import opened Store
  import opened Journals
  import opened Invariants
  import opened Views

  method Playback(store: SqliteStore, view: string) returns (events: seq<Event>, finalState: Facts)
    ensures Dense(store.events) ==> events == EventView(store.events, view)
    ensures Dense(store.events) && Secret(store.events) ==> finalState == PlaybackState(store.events)
  {
    var stored := store.Read();
    if Dense(store.events) {
      ReadOfDense(store.events);
    }
    events := EventView(stored, view);
    finalState := map[];
    var i := 0;
    while i < |events|
      invariant 0 <= i <= |events| && finalState == PlaybackState(events[..i])
    {
      if events[i].kind.StateChanged? && events[i].body.Changed? {
        finalState := finalState + events[i].body.updates;
      }
      assert events[..i + 1][..i] == events[..i];
      assert PlaybackState(events[..i]) + map[] == PlaybackState(events[..i]);
      i := i + 1;
    }
    assert events[..i] == events;
    if Secret(stored) {
      EveryViewPlaysBackAlike(stored, view);
    }
  }

  /** State changes are public: every view plays back to the state the whole log plays back to. */
  lemma {:induction false} EveryViewPlaysBackAlike(events: seq<Event>, view: string)
    requires Secret(events)
    ensures PlaybackState(EventView(events, view)) == PlaybackState(events)
  {
    if |events| > 0 {
      var front, last := events[..|events| - 1], events[|events| - 1];
      assert forall i :: 0 <= i < |front| ==> front[i] == events[i];
      EveryViewPlaysBackAlike(front, view);
      assert events == front + [last];
      assert last.kind.StateChanged? ==> last.Project(view) == Some(last);
      hide PlaybackState, EventView, Secret;
      ViewSnoc(front, last, view);
      PlaybackSnoc(front, last);
      assert EventView(front, view) + [] == EventView(front, view);
      if last.Project(view).Some? {
        PlaybackSnoc(EventView(front, view), last.Project(view).value);
      }
    }
  }

  lemma PlaybackSnoc(events: seq<Event>, e: Event)
    ensures PlaybackState(events + [e])
         == if e.kind.StateChanged? && e.body.Changed? then PlaybackState(events) + e.body.updates else PlaybackState(events)
  {
    Snoc(events, e);
    assert PlaybackState(events) + map[] == PlaybackState(events);
  }

  /** Playback starts from nothing, World from the initial state of the case. They agree exactly
      when the logged changes cover every key the case started with. */
  lemma PlaybackMissesTheStart(initial: Facts, played: Facts)
    ensures initial + played == played <==> initial.Keys <= played.Keys
  {
    if initial.Keys <= played.Keys {
      assert initial + played == played;
    } else {
      var k :| k in initial.Keys && k !in played.Keys;
      assert k in (initial + played).Keys;
    }
  }
}
