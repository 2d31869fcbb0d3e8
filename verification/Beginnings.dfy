/** How a run begins: an untouched world, the announcement, and the opening of the episode. */
module Beginnings {
  import opened Wrappers
  import opened Contracts
  import opened KernelState
  import opened Sorting
  import opened Scheduler
  import opened Store
  import opened Journals
  import opened WorldRules
  import opened DriverRules
  import opened RunRules
  import opened Recovery
  import opened Messages
  import opened Changes

  /** A new attempt starts at time 0 with what the case gives: its state, its public facts, each
      agent's own facts, no payoff yet, nothing queued, nobody dropped, and nothing counted. */
  lemma FreshWorld(s: Setup)
    ensures var w := NewWorld(s);
      && w.time == 0 && !w.finished && w.state == s.initialState && w.queue == [] && w.dropped == {} && w.publicFacts == s.publicFacts
      && (forall a :: a in w.payoffs <==> a in s.AgentIds()) && (forall a :: a in w.payoffs ==> w.payoffs[a] == 0.0)
      && (forall a :: a in w.privateFacts <==> a in s.AgentIds())
      && (forall a :: a in w.privateFacts ==> w.privateFacts[a] == if a in s.privateFacts then s.privateFacts[a] else map[])
      && w.counters == Counters(0, 0, 0, 0, 0) && (forall i: nat :: Reached(w.occurrences, i) == 0)
      && w.resources == ResourceDelta(0, 0, 0, 0, 0.0, 0.0, 0)
  {
  }

  /** And with the agents as they start, random streams not drawn from, and a row of its own under a number not used before. */
  lemma FreshSession(s: Setup, m: Minds, t: Tables)
    ensures var x := Begin(s, m, Opened(t));
      && x.core.world == NewWorld(s) && x.memos == m.initial && x.driver == Driver(0, [], 0) && x.sinceCheckpoint == 0
      && x.core.rng.seed == s.seed && x.core.rng.counters == map[] && x.core.journal.sequence == x.core.journal.index == 0
      && x.core.journal.attempt !in t.attempts && (forall n :: n in t.attempts ==> n < x.core.journal.attempt)
      && x.core.journal.disk.tables
           == t.(runState := Planned, attempts := t.attempts[x.core.journal.attempt := AttemptRow(Provisioning, None)])
  {
  }

  /** The k-th agent of the manifest, registered. */
  ghost predicate Registers(e: Event, a: AgentSpec, time: int) {
    e.kind.AgentRegistered? && e.actor == a.id && e.body == Registered(a.role) && e.time == time
  }

  lemma {:induction false} RegistersAll(c: Core, agents: seq<AgentSpec>)
    ensures var r := RegisterAll(c, agents);
      && r.world == c.world && c.Events() <= r.Events() && |r.Events()| == |c.Events()| + |agents|
      && r.journal.attempt == c.journal.attempt
      && forall k :: 0 <= k < |agents| ==> Registers(r.Events()[|c.Events()| + k], agents[k], c.world.time)
  {
    if |agents| > 0 {
      RegistersAll(c, agents[..|agents| - 1]);
    }
  }

  /** The announcement: the run has started, then each agent of the manifest with its role, in its order; and the rows say it is running. */
  lemma AnnouncedInOrder(s: Setup, x: Session, from: Option<nat>)
    ensures var y := Announce(s, x, from);
      var n := |x.core.Events()|;
      && x.core.Events() <= y.core.Events() && |y.core.Events()| == n + 1 + |s.agents|
      && y.core.Events()[n].kind.RunStarted? && y.core.Events()[n].time == x.core.world.time
      && (forall k :: 0 <= k < |s.agents| ==> Registers(y.core.Events()[n + 1 + k], s.agents[k], x.core.world.time))
      && y.core.world == x.core.world && y.driver == x.driver && y.memos == x.memos
      && y.core.journal.disk.tables.runState == Running
      && x.core.journal.attempt in y.core.journal.disk.tables.attempts
      && y.core.journal.disk.tables.attempts[x.core.journal.attempt] == AttemptRow(Running, from)
  {
    var c := Emit(x.core, PublicDraft(RunStarted, WORLD_ACTOR, x.core.world.time, NoBody));
    RegistersAll(c, s.agents);
    hide RegisterAll;
  }

  // ---- opening the episode ----

  function Opens(s: Setup, v: View): Agent -> bool {
    (a: Agent) => s.opening(a, v).Some?
  }

  /** A first message. */
  ghost predicate FirstMessage(s: Setup, v: View, i: Item) {
    && i.delivery.sender == WORLD_ACTOR && s.opening(i.delivery.recipient, v).Some?
    && i.delivery.visibility.Private? && i.orderHint == 0 && i.delivery.extraDelay == 0
  }

  lemma SameView(s: Setup, w: WorldState, w': WorldState)
    requires w' == w.(queue := w'.queue, counters := w'.counters, occurrences := w'.occurrences, resources := w'.resources)
    ensures ViewOf(s, w') == ViewOf(s, w)
  {
  }

  /** Exactly the agents with an opening are activated, in their order, and what is queued are first messages for them. */
  lemma {:induction false} OpensForEach(s: Setup, x: Session, agents: seq<Agent>) returns (more: seq<Item>)
    ensures var y, v := OpenAll(s, x, agents), ViewOf(s, x.core.world);
      && y.driver.activated == x.driver.activated + Filter(agents, Opens(s, v)) && y.memos == x.memos
      && y.core.world.queue == x.core.world.queue + more && (forall i :: i in more ==> FirstMessage(s, v, i))
      && ViewOf(s, y.core.world) == v
  {
    hide Enqueue, ViewOf;
    if |agents| == 0 {
      more := [];
      assert x.driver.activated + [] == x.driver.activated && x.core.world.queue + [] == x.core.world.queue;
    } else {
      more := OpensForEach(s, x, agents[..|agents| - 1]);
      var y, agent, v := OpenAll(s, x, agents[..|agents| - 1]), agents[|agents| - 1], ViewOf(s, x.core.world);
      var sofar := Filter(agents[..|agents| - 1], Opens(s, v));
      match s.opening(agent, v) {
        case None => assert sofar + [] == sofar;
        case Some(text) =>
          var d := Delivery(WORLD_ACTOR, agent, text, map["kind" := "opening"], Private, 0);
          var some := EnqueueCarries(s, y.core, d, 0);
          EnqueueOwnWorld(s, y.core, d, 0);
          SameView(s, y.core.world, Enqueue(s, y.core, d, 0).world);
          assert x.core.world.queue + more + some == x.core.world.queue + (more + some);
          assert x.driver.activated + sofar + [agent] == x.driver.activated + (sofar + [agent]);
          more := more + some;
      }
    }
  }

  /** A first message reaches its agent as it is, when no fault concerns it and it is not too long. */
  lemma OpeningArrives(s: Setup, x: Session, agent: Agent)
    requires s.faults == [] && agent in s.AgentIds() && agent !in x.core.world.dropped
    ensures match s.opening(agent, ViewOf(s, x.core.world))
      case None => Open(s, x, agent) == x
      case Some(text) =>
        Utf8Size(text) <= s.maxMessageBytes ==>
          Open(s, x, agent).core.world.queue == x.core.world.queue +
            [Item(x.core.world.time + s.latency, 0, Delivery(WORLD_ACTOR, agent, text, map["kind" := "opening"], Private, 0), 0)]
  {
    hide Utf8Size, ViewOf, Setup.AgentIds, ResourceDelta.Plus;
  }

  /** A resumed attempt: memory as the checkpoint has it, a row of its own that says where it resumed,
      and a first event that says so and how many events were superseded: those logged from there on. */
  lemma ResumedSession(s: Setup, m: Minds, t: Tables, c: Checkpoint)
    requires Dense(t.events) && c.sequence <= |t.events|
    ensures var x := Rejoin(s, m, Opened(t), c);
      var n := x.core.journal.attempt;
      && x.core.world == c.world && x.driver == c.driver && x.core.rng == c.rng && x.sinceCheckpoint == 0
      && x.core.journal.sequence == c.sequence + 1 && x.core.journal.index == c.index + 1
      && n !in t.attempts && (forall k :: k in t.attempts ==> k < n)
      && n in x.core.journal.disk.tables.attempts
      && x.core.journal.disk.tables.attempts[n] == AttemptRow(Provisioning, Some(c.sequence))
      && |x.core.Events()| == c.sequence + 1 && x.core.Events()[..c.sequence] == t.events[..c.sequence]
      && x.core.Events()[c.sequence].kind.AttemptStarted? && x.core.Events()[c.sequence].attempt == n
      && x.core.Events()[c.sequence].body == Resumed(c.sequence, |t.events| - c.sequence)
  {
    CutIsPrefix(t.events, c.sequence);
    ArchiveRowsEffect(Opened(t), Filter(t.events, From(c.sequence)));
    SupersededCount(t.events, c.sequence);
    hide Filter, ArchiveRows, RestoreMemos, Dense;
  }

  lemma SupersededCount(events: seq<Event>, q: nat)
    requires Dense(events) && q <= |events|
    ensures |Filter(events, From(q))| == |events| - q
  {
    assert events == events[..q] + events[q..];
    FilterConcat(events[..q], events[q..], From(q));
    FilterNone(events[..q], From(q));
    FilterAll(events[q..], From(q));
    hide Filter;
    assert [] + events[q..] == events[q..];
  }
}
