/** The log only grows, and each part of a session run writes its events at its own logical time. */
module Growth {
  import opened Wrappers
  import opened Contracts
  import opened KernelState
  import opened Sorting
  import opened Scheduler
  import opened Journals
  import opened WorldRules
  import opened DriverRules
  import opened DriverInvariants

  /** The log was continued at the time the clock still shows. */
  ghost predicate Stays(c: Core, c': Core) {
    && c'.world.time == c.world.time
    && c.Events() <= c'.Events()
    && c'.journal.sequence - c.journal.sequence == |c'.Events()| - |c.Events()|
    && forall i :: |c.Events()| <= i < |c'.Events()| ==> c'.Events()[i].time == c.world.time
  }

  /** The log was continued, not before the time the clock showed. */
  ghost predicate Grows(c: Core, c': Core) {
    && c.world.time <= c'.world.time
    && c.Events() <= c'.Events()
    && forall i :: |c.Events()| <= i < |c'.Events()| ==> c.world.time <= c'.Events()[i].time
  }

  lemma EmitStays(c: Core, d: Draft)
    requires d.time == c.world.time
    ensures Stays(c, Emit(c, d))
  {
  }

  lemma StaysOn(a: Core, b: Core, c: Core)
    requires Stays(a, b) && Stays(b, c)
    ensures Stays(a, c)
  {
  }

  lemma GrowsOn(a: Core, b: Core, c: Core)
    requires Grows(a, b) && Grows(b, c)
    ensures Grows(a, c)
  {
  }

  lemma StaysGrows(c: Core, c': Core)
    requires Stays(c, c')
    ensures Grows(c, c')
  {
  }

  lemma QuietStays(c: Core, c': Core)
    requires c'.journal == c.journal && c'.world.time == c.world.time
    ensures Stays(c, c')
  {
  }

  lemma ApplyFaultStays(s: Setup, c: Core, index: nat, item: Item)
    requires index < |s.faults|
    ensures Stays(c, ApplyFault(s, c, index, item).0)
  {
    hide Corrupt, AppliesTo, Stays, Emit;
    var c1 := FaultFires(s, c, index).0;
    QuietStays(c, c1);
    var c2 := c1.(ledger := c1.ledger.(fired := Bump(c1.ledger.fired, index)));
    var d := FaultDraft(s.faults[index].kind, c1.world.time, item.delivery);
    EmitStays(c2, d);
    QuietStays(c, c);
    QuietStays(c, c2);
    StaysOn(c, c2, Emit(c2, d));
    if AppliesTo(s.faults[index], item.delivery) && FaultFires(s, c, index).1 {
      QuietStays(Emit(c2, d), ApplyFault(s, c, index, item).0);
      StaysOn(c, Emit(c2, d), ApplyFault(s, c, index, item).0);
    }
  }

  lemma {:induction false} ApplyFaultsStays(s: Setup, c: Core, item: Item, count: nat)
    requires count <= |s.faults|
    ensures Stays(c, ApplyFaults(s, c, item, count).0)
  {
    hide ApplyFault;
    if count > 0 {
      ApplyFaultsStays(s, c, item, count - 1);
      var (c1, o) := ApplyFaults(s, c, item, count - 1);
      if o.Some? {
        ApplyFaultStays(s, c1, count - 1, o.value);
      }
    }
  }

  lemma EnqueueStays(s: Setup, c: Core, d: Delivery, orderHint: int)
    ensures Stays(c, Enqueue(s, c, d, orderHint))
  {
    hide ApplyFaults;
    ApplyFaultsStays(s, c, Scheduled(s, c.world, d, orderHint), |s.faults|);
  }

  lemma {:induction false} EnqueueAllStays(s: Setup, c: Core, ds: seq<Delivery>, orderHint: int)
    ensures Stays(c, EnqueueAll(s, c, ds, orderHint))
  {
    hide Enqueue;
    if |ds| > 0 {
      EnqueueAllStays(s, c, ds[..|ds| - 1], orderHint);
      EnqueueStays(s, EnqueueAll(s, c, ds[..|ds| - 1], orderHint), ds[|ds| - 1], orderHint);
    }
  }

  lemma ApplyChangeStays(s: Setup, c: Core, action: Action, change: Change)
    ensures Stays(c, ApplyChange(s, c, action, change))
  {
    hide EnqueueAll, GrantFacts;
    var c1 := c.(world := c.world.(
      state := c.world.state + change.updates,
      privateFacts := GrantFacts(c.world.privateFacts, change.factsTo)));
    EnqueueAllStays(s, c1, change.messages, 0);
  }

  lemma HandleMessageStays(s: Setup, c: Core, agent: Agent, em: Emission, invocation: nat)
    ensures Stays(c, HandleMessage(s, c, agent, em, invocation))
  {
    hide EnqueueAll, Stays, Emit, Route;
    var p := Proposal(agent, em.content, em.recipients, c.world.time);
    RouteStays(s, c, p);
    var (c1, decision) := Route(s, c, p);
    var visibility := if em.isPrivate then Private else decision.visibility;
    var authorized := if visibility.Public? then [] else [agent] + decision.recipients;
    var d := Draft(AgentMessage, agent, c.world.time, decision.recipients, None, visibility, authorized,
                   Said(em.content, invocation), em.delta);
    EmitStays(c1, d);
    StaysOn(c, c1, Emit(c1, d));
    var ds := Map(decision.recipients, Addressed(agent, em, decision, visibility));
    EnqueueAllStays(s, Emit(c1, d), ds, decision.orderHint);
    StaysOn(c, Emit(c1, d), EnqueueAll(s, Emit(c1, d), ds, decision.orderHint));
  }

  lemma RouteStays(s: Setup, c: Core, p: Proposal)
    ensures Stays(c, Route(s, c, p).0) && Route(s, c, p).0.world.time == c.world.time
  {
  }

  lemma TakeActionStays(s: Setup, c: Core, action: Action, delta: ResourceDelta)
    ensures Stays(c, TakeAction(s, c, action, delta))
  {
    hide ApplyChange;
    var c1 := Emit(c, PublicDraft(ActionTaken, action.actor, c.world.time, Acted(action.kind, action.args)).(delta := delta));
    match s.handle(action, ViewOf(s, c1.world)) {
      case None =>
      case Some(change) => ApplyChangeStays(s, c1, action, change);
    }
  }

  lemma HandleEmissionStays(s: Setup, c: Core, agent: Agent, em: Emission, invocation: nat)
    ensures Stays(c, HandleEmission(s, c, agent, em, invocation))
  {
    hide HandleMessage, TakeAction;
    HandleMessageStays(s, c, agent, em, invocation);
    TakeActionStays(s, c, ActionOf(agent, em), em.delta);
  }

  lemma MaybeCheckpointStays(s: Setup, m: Minds, x: Session)
    ensures Stays(x.core, MaybeCheckpoint(s, m, x).core)
  {
  }

  lemma TakeEmissionStays(s: Setup, m: Minds, x: Session, agent: Agent, em: Emission, invocation: nat)
    ensures Stays(x.core, TakeEmission(s, m, x, agent, em, invocation).core)
  {
    hide HandleEmission, MaybeCheckpoint;
    HandleEmissionStays(s, Charge(x.core, em), agent, em, invocation);
    MaybeCheckpointStays(s, m, x.(core := HandleEmission(s, Charge(x.core, em), agent, em, invocation)));
  }

  lemma {:induction false} RunStreamStays(
      s: Setup, m: Minds, x: Session, agent: Agent, emissions: seq<Emission>, invocation: nat)
    ensures Stays(x.core, RunStream(s, m, x, agent, emissions, invocation).core)
    decreases |emissions|
  {
    hide TakeEmission;
    if |emissions| > 0 {
      TakeEmissionStays(s, m, x, agent, emissions[0], invocation);
      RunStreamStays(s, m, TakeEmission(s, m, x, agent, emissions[0], invocation), agent, emissions[1..], invocation);
    }
  }

  lemma InvokeStays(s: Setup, m: Minds, x: Session, agent: Agent, d: Delivery, cause: EventId)
    ensures Stays(x.core, Invoke(s, m, x, agent, d, cause).core)
  {
    hide RunStream, EventView, Stays, Emit;
    var invocation := x.driver.invocations + 1;
    var draft := Draft(AgentInvoked, agent, x.core.world.time, [], Some(cause), Private, [agent], Invoked(invocation, d.content), NoResources);
    EmitStays(x.core, draft);
    var reply := m.invoke(agent, MemoOf(x, agent), RequestFor(s, x, agent, d, invocation));
    var x' := x.(core := Emit(x.core, draft), driver := x.driver.(invocations := invocation), memos := x.memos[agent := reply.memo]);
    RunStreamStays(s, m, x', agent, reply.emissions, invocation);
    StaysOn(x.core, x'.core, RunStream(s, m, x', agent, reply.emissions, invocation).core);
  }

  lemma HandStays(c: Core, item: Item)
    ensures Stays(c, Hand(c, item))
  {
  }

  /** After the item was handed over. */
  lemma AfterHand(s: Setup, m: Minds, x: Session, item: Item)
    requires item.delivery.recipient !in x.core.world.dropped
    ensures Stays(Hand(x.core, item), DeliverAndInvoke(s, m, x, item).core)
  {
    hide Invoke, MaybeCheckpoint, Hand, Stays;
    var y := x.(core := Hand(x.core, item));
    var y' := MaybeCheckpoint(s, m, y);
    MaybeCheckpointStays(s, m, y);
    InvokeStays(s, m, y', item.delivery.recipient, item.delivery, EventId(x.core.journal.sequence));
    StaysOn(y.core, y'.core, Invoke(s, m, y', item.delivery.recipient, item.delivery, EventId(x.core.journal.sequence)).core);
  }

  lemma DeliverStays(s: Setup, m: Minds, x: Session, item: Item)
    ensures Stays(x.core, DeliverAndInvoke(s, m, x, item).core)
  {
    if item.delivery.recipient !in x.core.world.dropped {
      hide DeliverAndInvoke, Hand;
      HandStays(x.core, item);
      AfterHand(s, m, x, item);
    }
  }

  lemma {:induction false} RunBatchStays(s: Setup, m: Minds, x: Session, items: seq<Item>)
    ensures Stays(x.core, RunBatch(s, m, x, items).core)
    decreases |items|
  {
    hide DeliverAndInvoke;
    if |items| > 0 {
      DeliverStays(s, m, x, items[0]);
      RunBatchStays(s, m, DeliverAndInvoke(s, m, x, items[0]), items[1..]);
    }
  }

  lemma AdvanceGrows(c: Core, time: int)
    ensures Grows(c, AdvanceTo(c, time))
  {
  }

  /** All that a session loop writes, it writes after what is there and not before the present. */
  lemma {:induction false} LoopGrowsLog(s: Setup, m: Minds, x: Session)
    ensures Grows(x.core, SessionLoop(s, m, x).0.core)
    decreases if x.core.journal.sequence < s.limits.maxEvents then s.limits.maxEvents - x.core.journal.sequence else 0,
              |x.core.world.queue|
  {
    hide RunBatch, LimitHit, NextDue, Popped, Remaining, AdvanceTo, Grows, Stays;
    if !x.core.world.finished && LimitHit(s, x.core).None? {
      LimitLeavesRoom(s, x.core);
      PopShrinks(s, x.core);
      var (core, due) := PopDue(s, x.core);
      var popped := x.(core := core);
      PopGrows(s, x.core);
      if |due| > 0 {
        var y := RunBatch(s, m, popped, due);
        RunBatchStays(s, m, popped, due);
        StaysGrows(core, y.core);
        AdvanceGrows(y.core, y.core.world.time + s.clockStep);
        EndRoundProgress(s, popped, y);
        LoopGrowsLog(s, m, EndRound(s, y));
        GrowsOn(x.core, core, y.core);
        GrowsOn(x.core, y.core, EndRound(s, y).core);
        GrowsOn(x.core, EndRound(s, y).core, SessionLoop(s, m, EndRound(s, y)).0.core);
      } else {
        NextDueIsLater(core.world.queue, core.world.time);
        if NextDue(core.world.queue).Some? && NextDue(core.world.queue).value <= s.limits.maxLogicalTime {
          var y := popped.(core := AdvanceTo(core, NextDue(core.world.queue).value));
          AdvanceGrows(core, NextDue(core.world.queue).value);
          AdvanceProgress(core, NextDue(core.world.queue).value);
          LoopGrowsLog(s, m, y);
          GrowsOn(x.core, core, y.core);
          GrowsOn(x.core, y.core, SessionLoop(s, m, y).0.core);
        }
      }
    } else {
      SameGrows(x.core);
    }
  }

  lemma SameGrows(c: Core)
    ensures Grows(c, c)
  {
  }

  lemma PopGrows(s: Setup, c: Core)
    ensures Grows(c, PopDue(s, c).0)
  {
  }
}
