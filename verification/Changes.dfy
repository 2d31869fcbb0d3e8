/** What a change of the world comes to: state, what agents are told privately, the messages it
    sends, and the end of the episode; how often checkpoints are written; and what is left when an
    agent drops out. */
module Changes {
  import opened Wrappers
  import opened Contracts
  import opened KernelState
  import opened Sorting
  import opened Scheduler
  import opened Store
  import opened Journals
  import opened WorldRules
  import opened DriverRules
  import opened Resumption
  import opened FaultFold
  import opened Chronicle
  import opened Messages

  /** `more` is laid over `old`. */
  ghost predicate Overlaid(new_: Facts, old_: Facts, more: Facts) {
    && (forall k :: k in new_ <==> k in old_ || k in more)
    && (forall k :: k in more ==> k in new_ && new_[k] == more[k])
    && (forall k :: k in old_ && k !in more ==> k in new_ && new_[k] == old_[k])
  }

  function ToldTo(facts: map<Agent, Facts>, agent: Agent): Facts {
    if agent in facts then facts[agent] else map[]
  }

  /** Each agent knows what it knew, and what it was told now on top of that. */
  ghost predicate ToldMore(after: map<Agent, Facts>, before: map<Agent, Facts>, more: map<Agent, Facts>) {
    && (forall a :: a in after <==> a in before || a in more)
    && forall a: Agent :: Overlaid(ToldTo(after, a), ToldTo(before, a), ToldTo(more, a))
  }

  lemma GrantsOverlay(before: map<Agent, Facts>, more: map<Agent, Facts>)
    ensures ToldMore(GrantFacts(before, more), before, more)
  {
  }

  lemma {:induction false} EnqueueAllWorld(s: Setup, c: Core, ds: seq<Delivery>, orderHint: int)
    ensures var w := EnqueueAll(s, c, ds, orderHint).world;
      w == c.world.(queue := w.queue, counters := w.counters, occurrences := w.occurrences, resources := w.resources)
  {
    hide Enqueue;
    if |ds| > 0 {
      EnqueueAllWorld(s, c, ds[..|ds| - 1], orderHint);
      EnqueueOwnWorld(s, EnqueueAll(s, c, ds[..|ds| - 1], orderHint), ds[|ds| - 1], orderHint);
    }
  }

  lemma {:induction false} FaultsOwnWorld(s: Setup, c: Core, item: Item, count: nat)
    requires count <= |s.faults|
    ensures var w := ApplyFaults(s, c, item, count).0.world;
      w == c.world.(queue := w.queue, counters := w.counters, occurrences := w.occurrences)
  {
    hide AppliesTo, Corrupt, Bump, FaultFires;
    if count > 0 {
      FaultsOwnWorld(s, c, item, count - 1);
      var c1 := ApplyFaults(s, c, item, count - 1).0;
      FiresOnly(s, c1, count - 1);
    }
  }

  lemma EnqueueOwnWorld(s: Setup, c: Core, d: Delivery, orderHint: int)
    ensures var w := Enqueue(s, c, d, orderHint).world;
      w == c.world.(queue := w.queue, counters := w.counters, occurrences := w.occurrences, resources := w.resources)
  {
    FaultsOwnWorld(s, c, Scheduled(s, c.world, d, orderHint), |s.faults|);
    hide ApplyFaults, Utf8Size, ResourceDelta.Plus, Setup.AgentIds;
  }

  /** A change of the world. If it is rejected one policy event says so and nothing else happens.
      Otherwise the state and what agents know are overlaid with it, its messages are scheduled
      with no hint, the episode ends if it says so, for its note's reason or else because of the
      action, and the last event says what the change was. */
  lemma AppliedChange(s: Setup, c: Core, action: Action, change: Change) returns (more: seq<Item>)
    ensures var c' := ApplyChange(s, c, action, change);
      var w, v, log := c.world, c'.world, c'.Events();
      && c.Events() <= log && |log| > |c.Events()|
      && (change.rejected != "" ==>
            && v == w && |log| == |c.Events()| + 1 && log[|log| - 1].kind.PolicyDecided?
            && log[|log| - 1].body == Policy("action_rejected", false, change.rejected, 0))
      && (change.rejected == "" ==>
            && Overlaid(v.state, w.state, change.updates) && ToldMore(v.privateFacts, w.privateFacts, change.factsTo)
            && v.queue == w.queue + more
            && (forall i :: i in more ==> exists d :: d in change.messages && Carries(i, d, 0))
            && v.finished == (w.finished || change.finished)
            && v.finishReason == (if !change.finished then w.finishReason
                                  else if change.note != "" then change.note else "action:" + action.kind)
            && v.time == w.time && v.payoffs == w.payoffs && v.dropped == w.dropped && v.publicFacts == w.publicFacts
            && log[|log| - 1].kind.StateChanged? && log[|log| - 1].time == w.time
            && log[|log| - 1].body == Changed(action.kind, change.updates, change.finished, change.note))
  {
    hide EnqueueAll, GrantFacts, Carries, Overlaid, ToldMore;
    more := [];
    if change.rejected == "" {
      var c1 := c.(world := c.world.(
        state := c.world.state + change.updates,
        privateFacts := GrantFacts(c.world.privateFacts, change.factsTo)));
      GrantsOverlay(c.world.privateFacts, change.factsTo);
      StateOverlaid(c.world.state, change.updates);
      more := EnqueueAllCarries(s, c1, change.messages, 0);
      EnqueueAllWorld(s, c1, change.messages, 0);
      EnqueueAllRemarks(s, c1, change.messages, 0);
    }
  }

  /** An action an agent takes. First the event that says what it is; then the task's handler for it is
      shown the action and the world, and what it answers is applied; without a handler one policy
      event says so and nothing else happens. */
  lemma ActionIsAnswered(s: Setup, c: Core, action: Action, delta: ResourceDelta) returns (c1: Core)
    ensures var c', n := TakeAction(s, c, action, delta), |c.Events()|;
      && c1.world == c.world && c1.rng == c.rng && c1.ledger == c.ledger
      && |c1.Events()| == n + 1 && c1.Events()[..n] == c.Events()
      && c1.Events()[n].kind.ActionTaken? && c1.Events()[n].actor == action.actor && c1.Events()[n].time == c.world.time
      && c1.Events()[n].body == Acted(action.kind, action.args) && c1.Events()[n].delta == delta
      && match s.handle(action, ViewOf(s, c.world))
         case Some(change) => c' == ApplyChange(s, c1, action, change)
         case None =>
           c'.world == c.world && |c'.Events()| == n + 2 && c'.Events()[..n + 1] == c1.Events()
           && c'.Events()[n + 1].kind.PolicyDecided? && c'.Events()[n + 1].body == Policy("unknown_action", false, action.kind, 0)
  {
    c1 := Emit(c, PublicDraft(ActionTaken, action.actor, c.world.time, Acted(action.kind, action.args)).(delta := delta));
    hide ApplyChange, ViewOf;
  }

  lemma StateOverlaid(state: Facts, updates: Facts)
    ensures Overlaid(state + updates, state, updates)
  {
  }

  // ---- how often checkpoints are written ----

  /** After how many steps: each, if none or fewer are asked for. */
  function Every(s: Setup): nat {
    if s.limits.checkpointEvery >= 1 then s.limits.checkpointEvery else 1
  }

  function IsSnapshot(): Event -> bool {
    (e: Event) => e.kind.SnapshotCreated?
  }

  /** How many checkpoints the log records. */
  function Written(x: Session): nat {
    |Filter(x.core.Events(), IsSnapshot())|
  }

  lemma OneStep(s: Setup, m: Minds, x: Session)
    requires 0 <= x.sinceCheckpoint < Every(s)
    ensures var y := MaybeCheckpoint(s, m, x);
      var due := x.sinceCheckpoint + 1 == Every(s);
      && y.sinceCheckpoint == (if due then 0 else x.sinceCheckpoint + 1)
      && Written(y) == Written(x) + (if due then 1 else 0)
      && (due ==> x.core.journal.sequence in y.core.journal.disk.tables.checkpoints)
  {
    hide Capture;
    var c := Capture(s, m, x.(sinceCheckpoint := 0));
    assert c.sequence == x.core.journal.sequence by { CapturedAt(s, m, x.(sinceCheckpoint := 0)); }
    var saved := x.core.(journal := x.core.journal.(disk := WithCheckpoint(x.core.journal.disk, c)));
    var d := PublicDraft(SnapshotCreated, WORLD_ACTOR, x.core.world.time, Body.Snapshot(c.sequence));
    FilterSnoc(saved.Events(), Stamp(saved.journal.attempt, saved.journal.sequence, saved.journal.index, d), IsSnapshot());
  }

  lemma CapturedAt(s: Setup, m: Minds, x: Session)
    ensures Capture(s, m, x).sequence == x.core.journal.sequence
  {
  }

  /** What a checkpoint holds: where the log and the journal stand, which attempt wrote it, the world
      with its queue in the order of delivery, the driver, the random streams, and the cursors of
      those agents that can be restored. It is stored under its own sequence, before the event that
      records it. */
  lemma CheckpointHolds(s: Setup, m: Minds, x: Session)
    ensures var y, j := SaveCheckpoint(s, m, x), x.core.journal;
      var t := y.core.journal.disk;
      && j.sequence in t.tables.checkpoints
      && var c := t.tables.checkpoints[j.sequence];
         && c.sequence == j.sequence && c.index == j.index && c.attempt == j.attempt
         && c.world == x.core.world.(queue := c.world.queue) && multiset(c.world.queue) == multiset(x.core.world.queue)
         && (forall a, b :: 0 <= a < b < |c.world.queue| ==> GoesBefore(s.digest, c.world.queue[a], c.world.queue[b]))
         && c.driver == x.driver && c.rng == x.core.rng
         && (forall a :: a in c.memos <==> a in x.memos && a in m.restorable) && (forall a :: a in c.memos ==> c.memos[a] == x.memos[a])
         && |t.trail| == |j.disk.trail| + 2
         && t.trail[|j.disk.trail|] == j.disk.tables.(checkpoints := j.disk.tables.checkpoints[j.sequence := c])
  {
    SortKeepsElements(x.core.world.queue, ItemOrder(s.digest));
    ItemOrderIsTotal(s.digest);
    SortSorted(x.core.world.queue, ItemOrder(s.digest));
    hide Sort;
  }

  /** A round ends: the clock moves one step, if that is forward, and one turn more was taken. */
  lemma RoundEnds(s: Setup, x: Session)
    ensures var y := EndRound(s, x);
      && y.core.world == x.core.world.(time := if s.clockStep > 0 then x.core.world.time + s.clockStep else x.core.world.time)
      && y.driver == x.driver.(turn := x.driver.turn + 1) && y.memos == x.memos && y.sinceCheckpoint == x.sinceCheckpoint
      && |y.core.Events()| == |x.core.Events()| + (if s.clockStep > 0 then 1 else 0)
  {
  }

  // ---- an agent that drops out ----

  lemma {:induction false} FilterKeepsPlaces<T>(xs: seq<T>, p: T -> bool) returns (at: seq<nat>)
    ensures |at| == |Filter(xs, p)| && (forall k :: 0 <= k < |at| ==> at[k] < |xs| && Filter(xs, p)[k] == xs[at[k]])
    ensures forall j, k :: 0 <= j < k < |at| ==> at[j] < at[k]
    ensures forall i :: 0 <= i < |xs| && p(xs[i]) ==> i in at
  {
    at := [];
    if |xs| > 0 {
      at := FilterKeepsPlaces(xs[..|xs| - 1], p);
      if p(xs[|xs| - 1]) {
        at := at + [|xs| - 1];
      }
    }
  }

  /** An agent drops out: it takes no more part; all that was on its way to it is gone, the rest of the
      queue stays as it lay; and one policy event says how many deliveries are gone. */
  lemma DroppedOut(c: Core, agent: Agent) returns (at: seq<nat>)
    ensures var c' := DropOut(c, agent);
      var w, v, log := c.world, c'.world, c'.Events();
      && v == w.(dropped := v.dropped, queue := v.queue) && (forall a :: a in v.dropped <==> a in w.dropped || a == agent)
      && |at| == |v.queue| && (forall k :: 0 <= k < |at| ==> at[k] < |w.queue| && v.queue[k] == w.queue[at[k]])
      && (forall j, k :: 0 <= j < k < |at| ==> at[j] < at[k])
      && (forall i :: 0 <= i < |w.queue| ==> (i in at <==> w.queue[i].delivery.recipient != agent))
      && |log| == |c.Events()| + 1 && log[|c.Events()|].kind.PolicyDecided?
      && log[|c.Events()|].body == Policy("agent_dropout", false, agent, |w.queue| - |v.queue|)
  {
    at := FilterKeepsPlaces(c.world.queue, NotFor(agent));
    FilterPartition(c.world.queue, For(agent), NotFor(agent));
    FilterElements(c.world.queue, NotFor(agent));
    hide Filter;
    var v := DropOut(c, agent).world;
    forall i | 0 <= i < |c.world.queue| ensures i in at <==> c.world.queue[i].delivery.recipient != agent {
      if i in at {
        var k :| 0 <= k < |at| && at[k] == i;
        assert v.queue[k] in v.queue;
      }
    }
  }
}
