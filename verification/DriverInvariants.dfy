/** Why both drivers keep memory and log in agreement, through every emission, batch and loop iteration. */
module DriverInvariants {
  import opened Wrappers
  import opened Contracts
  import opened KernelState
  import opened Sorting
  import opened Scheduler
  import opened Store
  import opened Journals
  import opened WorldRules
  import opened DriverRules
  import opened Invariants

  ghost predicate Healthy(s: Setup, a: Anchor, x: Session, batch: seq<Item>) {
    Good(s, a, x.core, Debt(map[], NoResources, batch))
  }

  // ---- checkpoints ----

  /** What memory holds between operations is what its checkpoint pins. A batch in hand is not in it. */
  lemma SnapshotAgrees(s: Setup, w: WorldState, l: Ledger, debt: Debt, events: seq<Event>)
    requires Agrees(s, w, l, debt, events) && debt.updates == map[] && debt.spent == NoResources
    ensures Agrees(s, SnapshotOf(s, w), l, NoDebt, events)
  {
    hide Mirrors, NotAhead, WellAddressed, Stocked, Taken, Delayed, Matched, Budgeted, Tallied, PhaseOf, Canon;
    CanonBooks(s, w, l);
    NothingOwed(s, w, l, debt.batch);
  }

  lemma CanonBooks(s: Setup, w: WorldState, l: Ledger)
    ensures var canon := Canon(s.digest, w.queue);
      && (forall i :: i in canon ==> i in w.queue)
      && (WellAddressed(s, w.dropped, w.queue) ==> WellAddressed(s, w.dropped, canon))
      && forall n :: Stocked(w.queue, n, l.posted, l.popped, l.removed) ==> Stocked(canon, n, l.posted, l.popped, l.removed)
  {
    SortKeepsElements(w.queue, ItemOrder(s.digest));
    var canon := Canon(s.digest, w.queue);
    forall i | i in canon ensures i in w.queue {
      assert i in multiset(canon);
    }
  }

  lemma NothingOwed(s: Setup, w: WorldState, l: Ledger, batch: seq<Item>)
    requires Taken(l.handed, batch, l.popped) && Delayed(s, w.time, l.posted, batch)
    ensures Taken(l.handed, [], l.popped) && Delayed(s, w.time, l.posted, [])
  {
  }

  /** Saving a checkpoint that pins the whole log. */
  lemma PutKeepsDurable(s: Setup, a: Anchor, d: Disk, c: Checkpoint)
    requires Durable(s, a, d) && Pins(s, c, d.tables.events) && c.sequence !in a.checkpoints
    ensures Durable(s, a, WithCheckpoint(d, c))
  {
    hide Pins, SoundLog;
    var t := d.tables.(checkpoints := d.tables.checkpoints[c.sequence := c]);
    assert Sound(s, d.tables) && Keeps(a, d.tables);
    assert Sound(s, t) && Keeps(a, t);
    SaveKeepsDurable(s, a, d, t);
  }

  lemma SaveCheckpointKeeps(s: Setup, a: Anchor, m: Minds, x: Session, batch: seq<Item>)
    requires Healthy(s, a, x, batch)
    ensures Healthy(s, a, SaveCheckpoint(s, m, x), batch)
  {
    hide Agrees, Durable, Dense;
    var debt := Debt(map[], NoResources, batch);
    var c := Capture(s, m, x);
    var d := x.core.journal.disk;
    SnapshotAgrees(s, x.core.world, x.core.ledger, debt, x.core.Events());
    assert x.core.Events()[..c.sequence] == x.core.Events();
    PutKeepsDurable(s, a, d, c);
    var saved := x.core.(journal := x.core.journal.(disk := WithCheckpoint(d, c)));
    assert Good(s, a, saved, debt);
    EmitQuiet(s, a, saved, PublicDraft(SnapshotCreated, WORLD_ACTOR, x.core.world.time, Body.Snapshot(c.sequence)), debt);
  }

  lemma MaybeCheckpointKeeps(s: Setup, a: Anchor, m: Minds, x: Session, batch: seq<Item>)
    requires Healthy(s, a, x, batch)
    ensures Healthy(s, a, MaybeCheckpoint(s, m, x), batch)
  {
    hide Good;
    SaveCheckpointKeeps(s, a, m, x.(sinceCheckpoint := 0), batch);
  }

  // ---- emissions ----

  lemma ChargeKeeps(s: Setup, a: Anchor, c: Core, em: Emission, batch: seq<Item>)
    requires Good(s, a, c, Debt(map[], NoResources, batch))
    ensures Good(s, a, Charge(c, em), Debt(map[], if em.kind.EmitError? then NoResources else em.delta, batch))
  {
    hide Mirrors, NotAhead, WellAddressed, Stocked, Taken, Delayed, Matched, Tallied, PhaseOf, Synced, Durable;
  }

  lemma HandleMessageKeeps(s: Setup, a: Anchor, c: Core, agent: Agent, em: Emission, invocation: nat, batch: seq<Item>)
    requires Good(s, a, c, Debt(map[], em.delta, batch))
    ensures Good(s, a, HandleMessage(s, c, agent, em, invocation), Debt(map[], NoResources, batch))
  {
    hide Good, Route, Emit, EnqueueAll;
    var p := Proposal(agent, em.content, em.recipients, c.world.time);
    RouteKeeps(s, a, c, p, Debt(map[], em.delta, batch));
    var (c1, decision) := Route(s, c, p);
    var visibility := if em.isPrivate then Private else decision.visibility;
    var authorized := if visibility.Public? then [] else [agent] + decision.recipients;
    var d := Draft(AgentMessage, agent, c.world.time, decision.recipients, None, visibility, authorized,
                   Said(em.content, invocation), em.delta);
    EmitPlain(s, a, c1, d, Debt(map[], em.delta, batch), Debt(map[], NoResources, batch));
    EnqueueAllKeeps(s, a, Emit(c1, d), Map(decision.recipients, Addressed(agent, em, decision, visibility)),
                    decision.orderHint, Debt(map[], NoResources, batch));
  }

  lemma TakeActionKeeps(s: Setup, a: Anchor, c: Core, action: Action, delta: ResourceDelta, batch: seq<Item>)
    requires Good(s, a, c, Debt(map[], delta, batch))
    ensures Good(s, a, TakeAction(s, c, action, delta), Debt(map[], NoResources, batch))
  {
    hide Good, Emit, ApplyChange;
    var d := PublicDraft(ActionTaken, action.actor, c.world.time, Acted(action.kind, action.args)).(delta := delta);
    EmitPlain(s, a, c, d, Debt(map[], delta, batch), Debt(map[], NoResources, batch));
    var c1 := Emit(c, d);
    match s.handle(action, ViewOf(s, c1.world)) {
      case None => PolicyKeeps(s, a, c1, "unknown_action", action.kind, 0, Debt(map[], NoResources, batch));
      case Some(change) => ApplyChangeKeeps(s, a, c1, action, change, Debt(map[], NoResources, batch));
    }
  }

  lemma ToolCountKeeps(s: Setup, a: Anchor, c: Core, debt: Debt)
    requires Good(s, a, c, debt)
    ensures Good(s, a, c.(world := c.world.(counters := c.world.counters.(toolCalls := c.world.counters.toolCalls + 1))), debt)
  {
    hide Mirrors, NotAhead, WellAddressed, Stocked, Taken, Delayed, Matched, Budgeted, Tallied, PhaseOf, Synced, Durable;
  }

  lemma HandleEmissionKeeps(s: Setup, a: Anchor, c: Core, agent: Agent, em: Emission, invocation: nat, batch: seq<Item>)
    requires Good(s, a, c, Debt(map[], if em.kind.EmitError? then NoResources else em.delta, batch))
    ensures Good(s, a, HandleEmission(s, c, agent, em, invocation), Debt(map[], NoResources, batch))
  {
    hide Good, HandleMessage, TakeAction, Emit;
    var owing, settled := Debt(map[], em.delta, batch), Debt(map[], NoResources, batch);
    match em.kind {
      case EmitMessage => HandleMessageKeeps(s, a, c, agent, em, invocation, batch);
      case EmitAction => TakeActionKeeps(s, a, c, ActionOf(agent, em), em.delta, batch);
      case EmitToolCall =>
        ToolCountKeeps(s, a, c, owing);
        var c1 := c.(world := c.world.(counters := c.world.counters.(toolCalls := c.world.counters.toolCalls + 1)));
        EmitPlain(s, a, c1, Draft(ToolCalled, agent, c.world.time, [], None, Private, [agent], ToolUse(em.tool, em.toolArgs), em.delta),
                  owing, settled);
      case EmitFinal =>
        EmitPlain(s, a, c, PublicDraft(AgentFinal, agent, c.world.time, Said(em.content, invocation)).(delta := em.delta), owing, settled);
      case EmitError =>
        EmitQuiet(s, a, c, PublicDraft(AgentError, agent, c.world.time, Failed(em.content)), settled);
    }
  }

  lemma TakeEmissionKeeps(s: Setup, a: Anchor, m: Minds, x: Session, agent: Agent, em: Emission, invocation: nat, batch: seq<Item>)
    requires Healthy(s, a, x, batch)
    ensures Healthy(s, a, TakeEmission(s, m, x, agent, em, invocation), batch)
  {
    hide Good, Charge, HandleEmission, MaybeCheckpoint;
    ChargeKeeps(s, a, x.core, em, batch);
    HandleEmissionKeeps(s, a, Charge(x.core, em), agent, em, invocation, batch);
    MaybeCheckpointKeeps(s, a, m, x.(core := HandleEmission(s, Charge(x.core, em), agent, em, invocation)), batch);
  }

  lemma {:induction false} RunStreamKeeps(
      s: Setup, a: Anchor, m: Minds, x: Session, agent: Agent, emissions: seq<Emission>, invocation: nat, batch: seq<Item>)
    requires Healthy(s, a, x, batch)
    ensures Healthy(s, a, RunStream(s, m, x, agent, emissions, invocation), batch)
    decreases |emissions|
  {
    hide Healthy, TakeEmission;
    if |emissions| > 0 {
      TakeEmissionKeeps(s, a, m, x, agent, emissions[0], invocation, batch);
      RunStreamKeeps(s, a, m, TakeEmission(s, m, x, agent, emissions[0], invocation), agent, emissions[1..], invocation, batch);
    }
  }

  // ---- deliveries ----

  lemma InvokeKeeps(s: Setup, a: Anchor, m: Minds, x: Session, agent: Agent, d: Delivery, cause: EventId, batch: seq<Item>)
    requires Healthy(s, a, x, batch)
    ensures Healthy(s, a, Invoke(s, m, x, agent, d, cause), batch)
  {
    hide Good, RunStream, Emit, RequestFor, MemoOf;
    var invocation := x.driver.invocations + 1;
    var draft := Draft(AgentInvoked, agent, x.core.world.time, [], Some(cause), Private, [agent],
                       Invoked(invocation, d.content), NoResources);
    EmitQuiet(s, a, x.core, draft, Debt(map[], NoResources, batch));
    var reply := m.invoke(agent, MemoOf(x, agent), RequestFor(s, x, agent, d, invocation));
    var x' := x.(core := Emit(x.core, draft), driver := x.driver.(invocations := invocation),
                 memos := x.memos[agent := reply.memo]);
    RunStreamKeeps(s, a, m, x', agent, reply.emissions, invocation, batch);
  }

  lemma ForgetKeeps(s: Setup, a: Anchor, c: Core, batch: seq<Item>, k: nat)
    requires Good(s, a, c, Debt(map[], NoResources, batch)) && k <= |batch|
    ensures Good(s, a, c, Debt(map[], NoResources, batch[k..]))
  {
    hide Mirrors, NotAhead, WellAddressed, Stocked, Matched, Budgeted, Tallied, PhaseOf, Synced, Durable;
    assert batch == batch[..k] + batch[k..];
  }

  lemma ForgetHealthy(s: Setup, a: Anchor, x: Session, batch: seq<Item>, k: nat)
    requires Healthy(s, a, x, batch) && k <= |batch|
    ensures Healthy(s, a, x, batch[k..])
  {
    hide Good;
    ForgetKeeps(s, a, x.core, batch, k);
  }

  lemma DeliverKeeps(s: Setup, a: Anchor, m: Minds, x: Session, batch: seq<Item>)
    requires |batch| > 0 && Healthy(s, a, x, batch)
    ensures Healthy(s, a, DeliverAndInvoke(s, m, x, batch[0]), batch[1..])
  {
    hide Good, Hand, Invoke, MaybeCheckpoint;
    var item := batch[0];
    if item.delivery.recipient in x.core.world.dropped {
      ForgetKeeps(s, a, x.core, batch, 1);
    } else {
      HandKeeps(s, a, x.core, item, Debt(map[], NoResources, batch));
      MaybeCheckpointKeeps(s, a, m, x.(core := Hand(x.core, item)), batch[1..]);
      InvokeKeeps(s, a, m, MaybeCheckpoint(s, m, x.(core := Hand(x.core, item))), item.delivery.recipient, item.delivery,
                  EventId(x.core.journal.sequence), batch[1..]);
    }
  }

  lemma RestOf(items: seq<Item>, lost: seq<Item>)
    requires |items| > 0
    ensures (items + lost)[0] == items[0] && (items + lost)[1..] == items[1..] + lost
    ensures (items[1..] + lost)[|items| - 1..] == lost
  {
  }

  /** One item, and then either the rest or, if the episode is finished, nothing more. */
  lemma StepOfBatch(s: Setup, a: Anchor, m: Minds, x: Session, items: seq<Item>, lost: seq<Item>)
    requires |items| > 0 && Healthy(s, a, x, items + lost)
    ensures var x' := DeliverAndInvoke(s, m, x, items[0]);
      Healthy(s, a, x', items[1..] + lost) && Healthy(s, a, x', lost)
  {
    hide Healthy, DeliverAndInvoke;
    RestOf(items, lost);
    DeliverKeeps(s, a, m, x, items + lost);
    ForgetHealthy(s, a, DeliverAndInvoke(s, m, x, items[0]), items[1..] + lost, |items| - 1);
  }

  /** A batch is handed over item by item. `lost` are popped items that nobody holds any more. */
  lemma {:induction false} RunBatchKeeps(s: Setup, a: Anchor, m: Minds, x: Session, items: seq<Item>, lost: seq<Item>)
    requires Healthy(s, a, x, items + lost)
    ensures Healthy(s, a, RunBatch(s, m, x, items), lost)
    decreases |items|
  {
    hide Healthy, DeliverAndInvoke;
    if |items| == 0 {
      assert items + lost == lost;
    } else {
      StepOfBatch(s, a, m, x, items, lost);
      var x' := DeliverAndInvoke(s, m, x, items[0]);
      if !x'.core.world.finished {
        RunBatchKeeps(s, a, m, x', items[1..], lost);
      }
    }
  }

  // ---- the session loop ----

  lemma OpenKeeps(s: Setup, a: Anchor, x: Session, agent: Agent, lost: seq<Item>)
    requires Healthy(s, a, x, lost)
    ensures Healthy(s, a, Open(s, x, agent), lost)
  {
    hide Good, Enqueue;
    match s.opening(agent, ViewOf(s, x.core.world)) {
      case None =>
      case Some(text) =>
        EnqueueKeeps(s, a, x.core, Delivery(WORLD_ACTOR, agent, text, map["kind" := "opening"], Private, 0), 0, Debt(map[], NoResources, lost));
    }
  }

  lemma {:induction false} OpenAllKeeps(s: Setup, a: Anchor, x: Session, agents: seq<Agent>, lost: seq<Item>)
    requires Healthy(s, a, x, lost)
    ensures Healthy(s, a, OpenAll(s, x, agents), lost)
  {
    hide Healthy, Open;
    if |agents| > 0 {
      OpenAllKeeps(s, a, x, agents[..|agents| - 1], lost);
      OpenKeeps(s, a, OpenAll(s, x, agents[..|agents| - 1]), agents[|agents| - 1], lost);
    }
  }

  lemma EndRoundKeeps(s: Setup, a: Anchor, x: Session, lost: seq<Item>)
    requires Healthy(s, a, x, lost)
    ensures Healthy(s, a, EndRound(s, x), lost)
  {
    hide Good;
    AdvanceKeeps(s, a, x.core, x.core.world.time + s.clockStep, Debt(map[], NoResources, lost));
  }

  lemma {:induction false} SessionLoopKeeps(s: Setup, a: Anchor, m: Minds, x: Session, lost: seq<Item>)
    requires Healthy(s, a, x, lost)
    ensures Healthy(s, a, SessionLoop(s, m, x).0, lost)
    decreases if x.core.journal.sequence < s.limits.maxEvents then s.limits.maxEvents - x.core.journal.sequence else 0,
              |x.core.world.queue|
  {
    hide Good, PopDue, RunBatch, EndRound, LimitHit, NextDue;
    if !x.core.world.finished && LimitHit(s, x.core).None? {
      LimitLeavesRoom(s, x.core);
      var (core, due) := PopDue(s, x.core);
      PopKeeps(s, a, x.core, Debt(map[], NoResources, lost));
      PopShrinks(s, x.core);
      var popped := x.(core := core);
      if |due| > 0 {
        RunBatchKeeps(s, a, m, popped, due, lost);
        EndRoundKeeps(s, a, RunBatch(s, m, popped, due), lost);
        EndRoundProgress(s, popped, RunBatch(s, m, popped, due));
        SessionLoopKeeps(s, a, m, EndRound(s, RunBatch(s, m, popped, due)), lost);
      } else {
        assert due + lost == lost;
        NextDueIsLater(core.world.queue, core.world.time);
        match NextDue(core.world.queue) {
          case None =>
          case Some(next) =>
            if next <= s.limits.maxLogicalTime {
              AdvanceKeeps(s, a, core, next, Debt(map[], NoResources, lost));
              SessionLoopKeeps(s, a, m, popped.(core := AdvanceTo(core, next)), lost);
            }
        }
      }
    }
  }

  lemma LimitLeavesRoom(s: Setup, c: Core)
    requires LimitHit(s, c).None?
    ensures c.journal.sequence < s.limits.maxEvents
  {
  }

  lemma PopShrinks(s: Setup, c: Core)
    ensures var (c', due) := PopDue(s, c);
      && c'.journal == c.journal && c'.world.time == c.world.time
      && |c'.world.queue| + |due| == |c.world.queue|
      && forall i :: i in c'.world.queue ==> i.due > c'.world.time
  {
    PopDueConserves(s.digest, c.world.queue, c.world.time);
  }

  lemma EndRoundProgress(s: Setup, before: Session, x: Session)
    requires x.core.journal.sequence > before.core.journal.sequence || x == before
    ensures EndRound(s, x).core.journal.sequence > before.core.journal.sequence
         || (EndRound(s, x).core.journal.sequence == before.core.journal.sequence
             && EndRound(s, x).core.world.queue == before.core.world.queue)
  {
  }

  lemma AdvanceProgress(c: Core, time: int)
    requires time > c.world.time
    ensures AdvanceTo(c, time).journal.sequence == c.journal.sequence + 1
  {
  }

  lemma RunSessionKeeps(s: Setup, a: Anchor, m: Minds, x: Session, lost: seq<Item>)
    requires Healthy(s, a, x, lost)
    ensures Healthy(s, a, RunSession(s, m, x).0, lost)
  {
    hide Healthy, SessionLoop, OpenAll;
    OpenAllKeeps(s, a, x, ActiveAgents(s, x.core.world.dropped), lost);
    SessionLoopKeeps(s, a, m, Activate(s, x), lost);
  }

  // ---- the environment driver ----

  lemma EnvChargeKeeps(s: Setup, a: Anchor, c: Core, em: Emission, lost: seq<Item>)
    requires Good(s, a, c, Debt(map[], NoResources, lost)) && !s.driver.SessionDriven?
    ensures Good(s, a, EnvCharge(c, em), Debt(map[], NoResources, lost))
  {
    hide Mirrors, NotAhead, WellAddressed, Stocked, Taken, Delayed, Matched, Tallied, PhaseOf, Synced, Durable;
  }

  lemma EnvCommitKeeps(s: Setup, a: Anchor, m: Minds, x: Session, action: Action, lost: seq<Item>)
    requires Healthy(s, a, x, lost)
    ensures Healthy(s, a, EnvCommit(s, m, x, action), lost)
  {
    hide Good, TakeAction, MaybeCheckpoint;
    TakeActionKeeps(s, a, x.core, action, NoResources, lost);
    MaybeCheckpointKeeps(s, a, m, x.(core := TakeAction(s, x.core, action, NoResources)), lost);
  }

  lemma {:induction false} EnvStreamKeeps(
      s: Setup, a: Anchor, m: Minds, x: Session, agent: Agent, emissions: seq<Emission>, collected: seq<Action>, lost: seq<Item>)
    requires Healthy(s, a, x, lost) && !s.driver.SessionDriven?
    ensures Healthy(s, a, EnvStream(s, m, x, agent, emissions, collected).0, lost)
    decreases |emissions|
  {
    hide Good, EnvCommit, EnvCharge;
    if |emissions| > 0 {
      var em := emissions[0];
      EnvChargeKeeps(s, a, x.core, em, lost);
      var x1 := x.(core := EnvCharge(x.core, em));
      if !em.kind.EmitAction? {
        EnvStreamKeeps(s, a, m, x1, agent, emissions[1..], collected, lost);
      } else if s.driver.ParallelDriven? {
        EnvStreamKeeps(s, a, m, x1, agent, emissions[1..], collected + [ActionOf(agent, em)], lost);
      } else {
        EnvCommitKeeps(s, a, m, x1, ActionOf(agent, em), lost);
        EnvStreamKeeps(s, a, m, EnvCommit(s, m, x1, ActionOf(agent, em)), agent, emissions[1..], collected, lost);
      }
    }
  }

  lemma EnvTurnKeeps(s: Setup, a: Anchor, m: Minds, x: Session, agent: Agent, collected: seq<Action>, lost: seq<Item>)
    requires Healthy(s, a, x, lost) && !s.driver.SessionDriven?
    ensures Healthy(s, a, EnvTurn(s, m, x, agent, collected).0, lost)
  {
    hide Good, EnvStream;
    var invocation := x.driver.invocations + 1;
    var reply := m.invoke(agent, MemoOf(x, agent), EnvRequest(s, x, agent, invocation));
    EnvStreamKeeps(s, a, m, x.(driver := x.driver.(invocations := invocation), memos := x.memos[agent := reply.memo]),
                   agent, reply.emissions, collected, lost);
  }

  lemma {:induction false} EnvAgentsKeeps(s: Setup, a: Anchor, m: Minds, x: Session, agents: seq<Agent>, collected: seq<Action>, lost: seq<Item>)
    requires Healthy(s, a, x, lost) && !s.driver.SessionDriven?
    ensures Healthy(s, a, EnvAgents(s, m, x, agents, collected).0, lost)
    decreases |agents|
  {
    hide Healthy, EnvTurn;
    if |agents| > 0 {
      EnvTurnKeeps(s, a, m, x, agents[0], collected, lost);
      var (x', collected') := EnvTurn(s, m, x, agents[0], collected);
      EnvAgentsKeeps(s, a, m, x', agents[1..], collected', lost);
    }
  }

  lemma {:induction false} EnvCommitAllKeeps(s: Setup, a: Anchor, m: Minds, x: Session, actions: seq<Action>, lost: seq<Item>)
    requires Healthy(s, a, x, lost)
    ensures Healthy(s, a, EnvCommitAll(s, m, x, actions), lost)
    decreases |actions|
  {
    hide Healthy, EnvCommit;
    if |actions| > 0 {
      EnvCommitKeeps(s, a, m, x, actions[0], lost);
      EnvCommitAllKeeps(s, a, m, EnvCommit(s, m, x, actions[0]), actions[1..], lost);
    }
  }

  lemma {:induction false} EnvLoopKeeps(s: Setup, a: Anchor, m: Minds, x: Session, lost: seq<Item>)
    requires Healthy(s, a, x, lost) && !s.driver.SessionDriven? && s.clockStep >= 1
    ensures Healthy(s, a, EnvLoop(s, m, x).0, lost)
    decreases if x.core.journal.sequence < s.limits.maxEvents then s.limits.maxEvents - x.core.journal.sequence else 0
  {
    hide Healthy, EnvAgents, EnvCommitAll;
    if !x.core.world.finished && x.core.world.time <= s.limits.maxLogicalTime && x.core.journal.sequence < s.limits.maxEvents {
      var agents := ActiveAgents(s, x.core.world.dropped);
      EnvAgentsKeeps(s, a, m, x, agents, [], lost);
      var (x', collected) := EnvAgents(s, m, x, agents, []);
      EnvCommitAllKeeps(s, a, m, x', Sort(collected, ActionOrder()), lost);
      EndRoundKeeps(s, a, Tick(s, m, x), lost);
      EnvLoopKeeps(s, a, m, EndRound(s, Tick(s, m, x)), lost);
    }
  }
}
