/** The execution drivers (src/testbed_kernel/drivers.py). Each method does what its rule in
    `DriverRules` says; the loops end where the rules recurse to an end. */
module Drivers {
  import opened Wrappers
  import opened Contracts
  import opened KernelState
  import opened Sorting
  import opened Scheduler
  import opened Store
  import opened Randomness
  import opened Journals
  import opened Worlds
  import R = WorldRules
  import D = DriverRules
  import I = DriverInvariants

  /** The agents of one attempt, with their restorable states. */
  class AgentPool {
    const m: Minds
    var memos: map<Agent, Memo>

    constructor (m: Minds, memos: map<Agent, Memo>)
      ensures this.m == m && this.memos == memos
    {
      this.m, this.memos := m, memos;
    }

    method Invoke(agent: Agent, request: Request) returns (emissions: seq<Emission>)
      modifies this
      ensures var reply := m.invoke(agent, if agent in old(memos) then old(memos)[agent] else "", request);
        emissions == reply.emissions && memos == old(memos)[agent := reply.memo]
    {
      var reply := m.invoke(agent, if agent in memos then memos[agent] else "", request);
      memos := memos[agent := reply.memo];
      emissions := reply.emissions;
    }
  }

  class SessionDriver {
    const world: World
    const pool: AgentPool
    var invocations: nat
    var activated: seq<Agent>
    var turn: nat
    var sinceCheckpoint: int

    ghost function Session(): Session
      reads this, world, world.journal, world.journal.store, world.rng, world.queue, pool
    {
      KernelState.Session.Session(world.Core(), Driver(invocations, activated, turn), sinceCheckpoint, pool.memos)
    }

    ghost predicate Ready()
      reads world, world.journal, world.journal.store
    {
      world.Ready()
    }

    constructor (world: World, pool: AgentPool, state: Driver)
      ensures this.world == world && this.pool == pool
      ensures invocations == state.invocations && activated == state.activated && turn == state.turn && sinceCheckpoint == 0
    {
      this.world, this.pool := world, pool;
      invocations, activated, turn, sinceCheckpoint := state.invocations, state.activated, state.turn, 0;
    }

    // ---- checkpoints ----

    /** The controller's checkpoint hook. */
    method WriteCheckpoint()
      requires Ready()
      modifies world.journal, world.journal.store
      ensures Ready() && Session() == D.SaveCheckpoint(world.s, pool.m, old(Session()))
    {
      var snapshot := world.Snapshot();
      var journal := world.journal;
      var c := Checkpoint(journal.sequence, journal.index, journal.attempt, snapshot, Driver(invocations, activated, turn),
                          D.Snapshots(pool.m, pool.memos), world.rng.Rng(), world.ledger);
      journal.store.PutCheckpoint(c);
      var _ := world.Emit(PublicDraft(SnapshotCreated, WORLD_ACTOR, world.time, Body.Snapshot(c.sequence)));
    }

    method MaybeCheckpoint()
      requires Ready()
      modifies this`sinceCheckpoint, world.journal, world.journal.store
      ensures Ready() && Session() == D.MaybeCheckpoint(world.s, pool.m, old(Session()))
    {
      hide D.SaveCheckpoint;
      sinceCheckpoint := sinceCheckpoint + 1;
      if sinceCheckpoint >= world.s.limits.checkpointEvery {
        sinceCheckpoint := 0;
        WriteCheckpoint();
      }
    }

    // ---- one emission ----

    /** One delivery for each recipient, in the order of the decision. */
    method EnqueueFor(recipients: seq<Agent>, f: Agent -> Delivery, orderHint: int)
      requires Ready()
      modifies world, world.rng, world.queue, world.journal, world.journal.store
      ensures Ready() && world.Core() == R.EnqueueAll(world.s, old(world.Core()), Map(recipients, f), orderHint)
    {
      hide R.Enqueue;
      ghost var c := world.Core();
      var i := 0;
      while i < |recipients|
        invariant 0 <= i <= |recipients|
        invariant Ready() && world.Core() == R.EnqueueAll(world.s, c, Map(recipients[..i], f), orderHint)
      {
        OneMoreDelivery(world.s, c, recipients, f, orderHint, i);
        world.Enqueue(f(recipients[i]), orderHint);
        i := i + 1;
      }
      assert recipients[..i] == recipients;
    }

    method HandleMessage(agent: Agent, em: Emission, invocation: nat)
      requires Ready()
      modifies world, world.rng, world.queue, world.journal, world.journal.store
      ensures Ready() && world.Core() == D.HandleMessage(world.s, old(world.Core()), agent, em, invocation)
    {
      hide R.Route, R.Emit, R.EnqueueAll;
      var time := world.time;
      var decision := world.Route(Proposal(agent, em.content, em.recipients, time));
      var visibility := if em.isPrivate then Private else decision.visibility;
      var authorized := if visibility.Public? then [] else [agent] + decision.recipients;
      var _ := world.Emit(Draft(AgentMessage, agent, time, decision.recipients, None, visibility, authorized,
                                Said(em.content, invocation), em.delta));
      if decision.blocked != "" {
        return;
      }
      EnqueueFor(decision.recipients, D.Addressed(agent, em, decision, visibility), decision.orderHint);
    }

    method HandleAgentEvent(agent: Agent, em: Emission, invocation: nat)
      requires Ready()
      modifies world, world.rng, world.queue, world.journal, world.journal.store
      ensures Ready() && world.Core() == D.HandleEmission(world.s, old(world.Core()), agent, em, invocation)
    {
      hide R.Emit, D.HandleMessage, D.TakeAction;
      match em.kind {
        case EmitMessage => HandleMessage(agent, em, invocation);
        case EmitAction => TakeAction(world, D.ActionOf(agent, em), em.delta);
        case EmitToolCall =>
          CountToolCall();
          var _ := world.Emit(Draft(ToolCalled, agent, world.time, [], None, Private, [agent],
                                    ToolUse(em.tool, em.toolArgs), em.delta));
        case EmitFinal =>
          var _ := world.Emit(PublicDraft(AgentFinal, agent, world.time, Said(em.content, invocation)).(delta := em.delta));
        case EmitError =>
          var _ := world.Emit(PublicDraft(AgentError, agent, world.time, Failed(em.content)));
      }
    }

    method CountToolCall()
      requires Ready()
      modifies world`counters
      ensures Ready()
      ensures world.Core() == old(world.Core()).(world := old(world.Values()).(
        counters := old(world.counters).(toolCalls := old(world.counters).toolCalls + 1)))
    {
      world.counters := world.counters.(toolCalls := world.counters.toolCalls + 1);
    }

    /** Calls and resources are charged before the emission is handled. */
    method Charge(em: Emission)
      requires Ready()
      modifies world`counters, world`resources, world`ledger
      ensures Ready() && world.Core() == D.Charge(old(world.Core()), em)
    {
      world.counters := world.counters.(modelCalls := world.counters.modelCalls + em.delta.modelCalls);
      world.resources := world.resources.Plus(em.delta);
      if em.kind.EmitError? {
        world.ledger := world.ledger.(unlogged := world.ledger.unlogged.Plus(em.delta));
      }
    }

    method TakeEmission(agent: Agent, em: Emission, invocation: nat)
      requires Ready()
      modifies this`sinceCheckpoint, world, world.rng, world.queue, world.journal, world.journal.store
      ensures Ready() && Session() == D.TakeEmission(world.s, pool.m, old(Session()), agent, em, invocation)
    {
      hide D.Charge, D.HandleEmission, D.MaybeCheckpoint;
      Charge(em);
      HandleAgentEvent(agent, em, invocation);
      MaybeCheckpoint();
    }

    /** The loop over what the agent emits. It stops when the episode is finished. */
    method RunStream(agent: Agent, emissions: seq<Emission>, invocation: nat)
      requires Ready()
      modifies this`sinceCheckpoint, world, world.rng, world.queue, world.journal, world.journal.store
      ensures Ready() && Session() == D.RunStream(world.s, pool.m, old(Session()), agent, emissions, invocation)
    {
      hide D.TakeEmission;
      ghost var start := Session();
      var i := 0;
      while i < |emissions|
        invariant 0 <= i <= |emissions| && Ready()
        invariant D.RunStream(world.s, pool.m, start, agent, emissions, invocation)
               == D.RunStream(world.s, pool.m, Session(), agent, emissions[i..], invocation)
      {
        TakeEmission(agent, emissions[i], invocation);
        assert emissions[i..][1..] == emissions[i + 1..];
        i := i + 1;
        if world.finished {
          return;
        }
      }
    }

    // ---- deliveries ----

    method Request(agent: Agent, d: Delivery, invocation: nat) returns (request: Request)
      requires Ready()
      ensures request == D.RequestFor(world.s, Session(), agent, d, invocation)
    {
      var stored := world.journal.store.Read();
      ReadOfDense(world.journal.store.events);
      request := Contracts.Request.Request(
        invocation, agent, world.time, d.content, [d], R.VisibleState(world.Values()), R.FactsOf(world.Values(), agent),
        EventView(stored, agent), world.rng.seed);
    }

    method Invoke(agent: Agent, d: Delivery, cause: EventId)
      requires Ready()
      modifies this`sinceCheckpoint, this`invocations, pool, world, world.rng, world.queue, world.journal, world.journal.store
      ensures Ready() && Session() == D.Invoke(world.s, pool.m, old(Session()), agent, d, cause)
    {
      hide D.RunStream, R.Emit, EventView;
      invocations := invocations + 1;
      var request := Request(agent, d, invocations);
      var _ := world.Emit(Draft(AgentInvoked, agent, world.time, [], Some(cause), Private, [agent],
                                Invoked(invocations, d.content), NoResources));
      var emissions := pool.Invoke(agent, request);
      RunStream(agent, emissions, invocations);
    }

    method DeliverAndInvoke(item: Item)
      requires Ready()
      modifies this`sinceCheckpoint, this`invocations, pool, world, world.rng, world.queue, world.journal, world.journal.store
      ensures Ready() && Session() == D.DeliverAndInvoke(world.s, pool.m, old(Session()), item)
    {
      hide D.Invoke, D.MaybeCheckpoint, D.Hand;
      var recipient := item.delivery.recipient;
      if recipient in world.dropped {
        return;
      }
      var cause := Hand(world, item);
      MaybeCheckpoint();
      if recipient !in pool.m.initial {
        return;
      }
      Invoke(recipient, item.delivery, cause);
    }

    /** The loop over one batch. It stops when the episode is finished. */
    method RunBatch(items: seq<Item>)
      requires Ready()
      modifies this`sinceCheckpoint, this`invocations, pool, world, world.rng, world.queue, world.journal, world.journal.store
      ensures Ready() && Session() == D.RunBatch(world.s, pool.m, old(Session()), items)
    {
      hide D.DeliverAndInvoke;
      ghost var start := Session();
      var i := 0;
      while i < |items|
        invariant 0 <= i <= |items| && Ready()
        invariant D.RunBatch(world.s, pool.m, start, items) == D.RunBatch(world.s, pool.m, Session(), items[i..])
      {
        DeliverAndInvoke(items[i]);
        assert items[i..][1..] == items[i + 1..];
        i := i + 1;
        if world.finished {
          return;
        }
      }
    }

    // ---- the main loop ----

    method Open(agent: Agent)
      requires Ready()
      modifies this`activated, world, world.rng, world.queue, world.journal, world.journal.store
      ensures Ready() && Session() == D.Open(world.s, old(Session()), agent)
    {
      hide R.Enqueue;
      var view := world.View();
      var instruction := world.s.opening(agent, view);
      if instruction.Some? {
        world.Enqueue(Delivery(WORLD_ACTOR, agent, instruction.value, map["kind" := "opening"], Private, 0), 0);
        activated := activated + [agent];
      }
    }

    method Activate()
      requires Ready()
      modifies this`activated, world, world.rng, world.queue, world.journal, world.journal.store
      ensures Ready() && Session() == D.Activate(world.s, old(Session()))
    {
      hide D.Open;
      if activated != [] {
        return;
      }
      ghost var start := Session();
      var agents := R.ActiveAgents(world.s, world.dropped);
      var i := 0;
      while i < |agents|
        invariant 0 <= i <= |agents| && Ready()
        invariant Session() == D.OpenAll(world.s, start, agents[..i])
      {
        assert agents[..i + 1][..i] == agents[..i];
        Open(agents[i]);
        i := i + 1;
      }
      assert agents[..i] == agents;
    }

    method LimitHit() returns (limit: Option<D.Limit>)
      ensures D.FirstExceeded(world.s, world.Core(), limit)
    {
      D.LimitHitIsFirst(world.s, world.Core(), D.LimitHit(world.s, world.Core()));
      var limits := world.s.limits;
      if world.time > limits.maxLogicalTime {
        return Some(D.MaxLogicalTime);
      }
      if world.journal.sequence >= limits.maxEvents {
        return Some(D.MaxEvents);
      }
      if world.counters.messages > limits.maxMessages {
        return Some(D.MaxMessages);
      }
      if world.counters.modelCalls > limits.maxModelCalls {
        return Some(D.MaxModelCalls);
      }
      if world.resources.costUsd > limits.maxCostUsd {
        return Some(D.MaxCostUsd);
      }
      return None;
    }

    method EndRound()
      requires Ready()
      modifies this`turn, world, world.journal, world.journal.store
      ensures Ready() && Session() == D.EndRound(world.s, old(Session()))
    {
      turn := turn + 1;
      world.AdvanceTo(world.time + world.s.clockStep);
    }

    /** `run`. It ends for every topology, latency and clock step. */
    method Run() returns (outcome: D.Outcome)
      requires Ready()
      modifies this, pool, world, world.rng, world.queue, world.journal, world.journal.store
      ensures Ready() && (Session(), outcome) == D.RunSession(world.s, pool.m, old(Session()))
    {
      hide D.Activate, D.SessionLoop;
      Activate();
      outcome := Loop();
    }

    method Loop() returns (outcome: D.Outcome)
      requires Ready()
      modifies this, pool, world, world.rng, world.queue, world.journal, world.journal.store
      ensures Ready() && (Session(), outcome) == D.SessionLoop(world.s, pool.m, old(Session()))
    {
      hide D.LimitHit, D.FirstExceeded, D.RunBatch, D.EndRound, R.PopDue, R.AdvanceTo, NextDue;
      ghost var start := Session();
      while !world.finished
        invariant Ready()
        invariant D.SessionLoop(world.s, pool.m, Session()) == D.SessionLoop(world.s, pool.m, start)
        decreases
          if world.journal.sequence < world.s.limits.maxEvents then world.s.limits.maxEvents - world.journal.sequence else 0,
          |world.queue.items|
      {
        var limit := LimitHit();
        D.LimitHitIsFirst(world.s, world.Core(), limit);
        if limit.Some? {
          return D.Stopped(limit.value);
        }
        ghost var x := Session();
        I.LimitLeavesRoom(world.s, x.core);
        I.PopShrinks(world.s, x.core);
        var due := world.PopDue();
        ghost var popped := Session();
        if |due| == 0 {
          D.NextDueIsLater(world.queue.items, world.time);
          var next := NextDue(world.queue.items);
          if next.None? {
            return D.Outcome(false, "quiescent", None);
          }
          if next.value > world.s.limits.maxLogicalTime {
            return D.Stopped(D.MaxLogicalTime);
          }
          ghost var y := world.Core();
          world.AdvanceTo(next.value);
          I.AdvanceProgress(y, next.value);
        } else {
          RunBatch(due);
          ghost var y := Session();
          EndRound();
          I.EndRoundProgress(world.s, popped, y);
        }
      }
      outcome := D.Done(world.Values());
    }
  }

  /** reset/step over a World: agents act in turn, or all at once. */
  class EnvDriver {
    const world: World
    const pool: AgentPool
    var invocations: nat
    var activated: seq<Agent>
    var turn: nat
    var sinceCheckpoint: int

    ghost function Session(): Session
      reads this, world, world.journal, world.journal.store, world.rng, world.queue, pool
    {
      KernelState.Session.Session(world.Core(), Driver(invocations, activated, turn), sinceCheckpoint, pool.memos)
    }

    ghost predicate Ready()
      reads world, world.journal, world.journal.store
    {
      world.Ready()
    }

    constructor (world: World, pool: AgentPool, state: Driver)
      ensures this.world == world && this.pool == pool
      ensures invocations == state.invocations && activated == state.activated && turn == state.turn && sinceCheckpoint == 0
    {
      this.world, this.pool := world, pool;
      invocations, activated, turn, sinceCheckpoint := state.invocations, state.activated, state.turn, 0;
    }

    method MaybeCheckpoint()
      requires Ready()
      modifies this`sinceCheckpoint, world.journal, world.journal.store
      ensures Ready() && Session() == D.MaybeCheckpoint(world.s, pool.m, old(Session()))
    {
      hide D.SaveCheckpoint;
      sinceCheckpoint := sinceCheckpoint + 1;
      if sinceCheckpoint >= world.s.limits.checkpointEvery {
        sinceCheckpoint := 0;
        WriteCheckpoint();
      }
    }

    method WriteCheckpoint()
      requires Ready()
      modifies world.journal, world.journal.store
      ensures Ready() && Session() == D.SaveCheckpoint(world.s, pool.m, old(Session()))
    {
      var snapshot := world.Snapshot();
      var journal := world.journal;
      var c := Checkpoint(journal.sequence, journal.index, journal.attempt, snapshot, Driver(invocations, activated, turn),
                          D.Snapshots(pool.m, pool.memos), world.rng.Rng(), world.ledger);
      journal.store.PutCheckpoint(c);
      var _ := world.Emit(PublicDraft(SnapshotCreated, WORLD_ACTOR, world.time, Body.Snapshot(c.sequence)));
    }

    /** World counts the resources of an emission; no event carries them. */
    method Charge(em: Emission)
      requires Ready()
      modifies world`resources, world`ledger
      ensures Ready() && world.Core() == D.EnvCharge(old(world.Core()), em)
    {
      world.resources := world.resources.Plus(em.delta);
      world.ledger := world.ledger.(unlogged := world.ledger.unlogged.Plus(em.delta));
    }

    method Commit(action: Action)
      requires Ready()
      modifies this`sinceCheckpoint, world, world.rng, world.queue, world.journal, world.journal.store
      ensures Ready() && Session() == D.EnvCommit(world.s, pool.m, old(Session()), action)
    {
      hide D.TakeAction, D.MaybeCheckpoint;
      TakeAction(world, action, NoResources);
      MaybeCheckpoint();
    }

    /** The loop over what one agent emits: committed at once in turn-taking mode, collected in parallel mode. */
    method Stream(agent: Agent, emissions: seq<Emission>, before: seq<Action>) returns (collected: seq<Action>)
      requires Ready()
      modifies this`sinceCheckpoint, world, world.rng, world.queue, world.journal, world.journal.store
      ensures Ready() && (Session(), collected) == D.EnvStream(world.s, pool.m, old(Session()), agent, emissions, before)
    {
      hide D.EnvCharge, D.EnvCommit;
      ghost var start := Session();
      collected := before;
      var i := 0;
      while i < |emissions|
        invariant 0 <= i <= |emissions| && Ready()
        invariant D.EnvStream(world.s, pool.m, start, agent, emissions, before)
               == D.EnvStream(world.s, pool.m, Session(), agent, emissions[i..], collected)
      {
        var em := emissions[i];
        assert emissions[i..][1..] == emissions[i + 1..];
        i := i + 1;
        Charge(em);
        if !em.kind.EmitAction? {
          continue;
        }
        if world.s.driver.ParallelDriven? {
          collected := collected + [D.ActionOf(agent, em)];
        } else {
          Commit(D.ActionOf(agent, em));
          if world.finished {
            return;
          }
        }
      }
    }

    method Turn(agent: Agent, before: seq<Action>) returns (collected: seq<Action>)
      requires Ready()
      modifies this`sinceCheckpoint, this`invocations, pool, world, world.rng, world.queue, world.journal, world.journal.store
      ensures Ready() && (Session(), collected) == D.EnvTurn(world.s, pool.m, old(Session()), agent, before)
    {
      hide D.EnvStream;
      invocations := invocations + 1;
      var request := Contracts.Request.Request(
        invocations, agent, world.time, world.s.instruction, [], R.VisibleState(world.Values()),
        R.FactsOf(world.Values(), agent), [], world.rng.seed);
      var emissions := pool.Invoke(agent, request);
      collected := Stream(agent, emissions, before);
    }

    method Tick()
      requires Ready()
      modifies this`sinceCheckpoint, this`invocations, pool, world, world.rng, world.queue, world.journal, world.journal.store
      ensures Ready() && Session() == D.Tick(world.s, pool.m, old(Session()))
    {
      hide D.EnvTurn, D.EnvCommitAll;
      ghost var start := Session();
      var agents := R.ActiveAgents(world.s, world.dropped);
      var collected: seq<Action> := [];
      var i, going := 0, true;
      while i < |agents| && going
        invariant 0 <= i <= |agents| && Ready()
        invariant D.EnvAgents(world.s, pool.m, start, agents, [])
               == if going then D.EnvAgents(world.s, pool.m, Session(), agents[i..], collected) else (Session(), collected)
      {
        collected := Turn(agents[i], collected);
        assert agents[i..][1..] == agents[i + 1..];
        i := i + 1;
        going := !world.finished;
      }
      if world.s.driver.ParallelDriven? {
        CommitAll(Sort(collected, D.ActionOrder()));
      }
    }

    method CommitAll(actions: seq<Action>)
      requires Ready()
      modifies this`sinceCheckpoint, world, world.rng, world.queue, world.journal, world.journal.store
      ensures Ready() && Session() == D.EnvCommitAll(world.s, pool.m, old(Session()), actions)
    {
      hide D.EnvCommit;
      ghost var start := Session();
      var i := 0;
      while i < |actions|
        invariant 0 <= i <= |actions| && Ready()
        invariant D.EnvCommitAll(world.s, pool.m, start, actions) == D.EnvCommitAll(world.s, pool.m, Session(), actions[i..])
      {
        Commit(actions[i]);
        assert actions[i..][1..] == actions[i + 1..];
        i := i + 1;
        if world.finished {
          return;
        }
      }
    }

    /** `run`, for a positive clock step. With another one the loop need not end: an agent that
        never acts leaves nothing to count the iterations by. */
    method Run() returns (outcome: D.Outcome)
      requires Ready() && world.s.clockStep >= 1
      modifies this, pool, world, world.rng, world.queue, world.journal, world.journal.store
      ensures Ready() && (Session(), outcome) == D.EnvLoop(world.s, pool.m, old(Session()))
    {
      hide D.Tick, R.AdvanceTo;
      ghost var start := Session();
      while !world.finished
        invariant Ready()
        invariant D.EnvLoop(world.s, pool.m, Session()) == D.EnvLoop(world.s, pool.m, start)
        decreases if world.journal.sequence < world.s.limits.maxEvents then world.s.limits.maxEvents - world.journal.sequence else 0
      {
        if world.time > world.s.limits.maxLogicalTime {
          return D.Stopped(D.MaxLogicalTime);
        }
        if world.journal.sequence >= world.s.limits.maxEvents {
          return D.Stopped(D.MaxEvents);
        }
        Tick();
        turn := turn + 1;
        I.AdvanceProgress(world.Core(), world.time + world.s.clockStep);
        world.AdvanceTo(world.time + world.s.clockStep);
      }
      outcome := D.Done(world.Values());
    }
  }

  /** The action event, then what its handler makes of it. */
  method TakeAction(world: World, action: Action, delta: ResourceDelta)
    requires world.Ready()
    modifies world, world.rng, world.queue, world.journal, world.journal.store
    ensures world.Ready() && world.Core() == D.TakeAction(world.s, old(world.Core()), action, delta)
  {
    hide R.Emit, R.ApplyChange, R.PolicyEvent;
    var _ := world.Emit(PublicDraft(ActionTaken, action.actor, world.time, Acted(action.kind, action.args)).(delta := delta));
    var view := world.View();
    var change := world.s.handle(action, view);
    if change.None? {
      world.PolicyEvent("unknown_action", action.kind, 0);
      return;
    }
    world.ApplyChange(action, change.value);
  }

  /** The delivered event. */
  method Hand(world: World, item: Item) returns (cause: EventId)
    requires world.Ready()
    modifies world`ledger, world.journal, world.journal.store
    ensures world.Ready() && world.Core() == D.Hand(old(world.Core()), item)
    ensures cause == EventId(old(world.journal.sequence))
  {
    world.ledger := world.ledger.(handed := world.ledger.handed + [item]);
    var e := world.Emit(D.DeliveredDraft(item, world.time));
    cause := e.id;
  }

  lemma OneMoreDelivery(s: Setup, c: Core, recipients: seq<Agent>, f: Agent -> Delivery, orderHint: int, i: nat)
    requires i < |recipients|
    ensures R.EnqueueAll(s, c, Map(recipients[..i + 1], f), orderHint)
         == R.Enqueue(s, R.EnqueueAll(s, c, Map(recipients[..i], f), orderHint), f(recipients[i]), orderHint)
  {
    hide R.Enqueue;
    assert recipients[..i + 1] == recipients[..i] + [recipients[i]];
    MapSnoc(recipients[..i], recipients[i], f);
    var ds := Map(recipients[..i], f);
    assert (ds + [f(recipients[i])])[..|ds|] == ds;
  }
}
