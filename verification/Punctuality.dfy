/** When no delay is negative and the latency is positive, nothing that is scheduled while a
    batch is handled becomes due while it is handled. */
module Punctuality {
  import opened Wrappers
  import opened Contracts
  import opened KernelState
  import opened Sorting
  import opened Scheduler
  import opened Journals
  import opened WorldRules
  import opened DriverRules

  /** Every queued delivery is due later than now: the batch of this moment was fully taken out. */
  ghost predicate Pending(w: WorldState) {
    forall i :: i in w.queue ==> i.due > w.time
  }

  ghost predicate Prompt(ds: seq<Delivery>) {
    forall d :: d in ds ==> d.extraDelay >= 0
  }

  ghost predicate Unhurried(s: Setup) {
    && s.latency >= 1
    && (forall f :: f in s.faults ==> f.delayTicks >= 0)
    && (forall p: Proposal, v: View :: s.route(p, v).extraDelay >= 0)
    && (forall a: Action, v: View :: s.handle(a, v).Some? ==> Prompt(s.handle(a, v).value.messages))
  }

  /** Still pending, at the same time. */
  ghost predicate Later(c: Core, c': Core) {
    c'.world.time == c.world.time && Pending(c'.world)
  }

  lemma PopLeavesPending(s: Setup, c: Core)
    ensures Later(c, PopDue(s, c).0)
  {
    PopDueConserves(s.digest, c.world.queue, c.world.time);
  }

  lemma PostLater(c: Core, item: Item)
    requires Pending(c.world) && item.due > c.world.time
    ensures Later(c, Post(c, item))
  {
  }

  lemma ApplyFaultLater(s: Setup, c: Core, index: nat, item: Item)
    requires Unhurried(s) && Pending(c.world) && item.due > c.world.time && index < |s.faults|
    ensures var (c', o) := ApplyFault(s, c, index, item);
      Later(c, c') && (o.Some? ==> o.value.due > c.world.time)
  {
    hide Unhurried, Reverse, AppliesTo, Record, FaultFires;
    DelayIsNotNegative(s, index);
    FaultFiresLater(s, c, index);
    var c1 := FaultFires(s, c, index).0;
    PostLater(c1, item.(duplicate := 1));
  }

  lemma DelayIsNotNegative(s: Setup, index: nat)
    requires Unhurried(s) && index < |s.faults|
    ensures s.faults[index].delayTicks >= 0
  {
    assert s.faults[index] in s.faults;
  }

  lemma FaultFiresLater(s: Setup, c: Core, index: nat)
    requires Pending(c.world) && index < |s.faults|
    ensures Later(c, FaultFires(s, c, index).0)
  {
  }

  lemma {:induction false} ApplyFaultsLater(s: Setup, c: Core, item: Item, count: nat)
    requires Unhurried(s) && Pending(c.world) && item.due > c.world.time && count <= |s.faults|
    ensures var (c', o) := ApplyFaults(s, c, item, count);
      Later(c, c') && (o.Some? ==> o.value.due > c.world.time)
  {
    hide ApplyFault, Unhurried, Pending;
    if count > 0 {
      ApplyFaultsLater(s, c, item, count - 1);
      var (c1, o) := ApplyFaults(s, c, item, count - 1);
      if o.Some? {
        ApplyFaultLater(s, c1, count - 1, o.value);
      }
    }
  }

  lemma EnqueueLater(s: Setup, c: Core, d: Delivery, orderHint: int)
    requires Unhurried(s) && Pending(c.world) && d.extraDelay >= 0
    ensures Later(c, Enqueue(s, c, d, orderHint))
  {
    hide ApplyFaults;
    if Deliverable(s, c.world.dropped, d) {
      var item := Scheduled(s, c.world, d, orderHint);
      ApplyFaultsLater(s, c, item, |s.faults|);
      var (c', o) := ApplyFaults(s, c, item, |s.faults|);
      if o.Some? {
        PostLater(c', o.value);
      }
    }
  }

  lemma {:induction false} EnqueueAllLater(s: Setup, c: Core, ds: seq<Delivery>, orderHint: int)
    requires Unhurried(s) && Pending(c.world) && Prompt(ds)
    ensures Later(c, EnqueueAll(s, c, ds, orderHint))
  {
    hide Enqueue, Unhurried, Pending;
    if |ds| > 0 {
      assert ds[|ds| - 1] in ds;
      assert Prompt(ds[..|ds| - 1]);
      EnqueueAllLater(s, c, ds[..|ds| - 1], orderHint);
      EnqueueLater(s, EnqueueAll(s, c, ds[..|ds| - 1], orderHint), ds[|ds| - 1], orderHint);
    }
  }

  lemma ApplyChangeLater(s: Setup, c: Core, action: Action, change: Change)
    requires Unhurried(s) && Pending(c.world) && Prompt(change.messages)
    ensures Later(c, ApplyChange(s, c, action, change))
  {
    hide EnqueueAll, Unhurried;
    var c1 := c.(world := c.world.(
      state := c.world.state + change.updates,
      privateFacts := GrantFacts(c.world.privateFacts, change.factsTo)));
    EnqueueAllLater(s, c1, change.messages, 0);
  }

  lemma HandleMessageLater(s: Setup, c: Core, agent: Agent, em: Emission, invocation: nat)
    requires Unhurried(s) && Pending(c.world)
    ensures Later(c, HandleMessage(s, c, agent, em, invocation))
  {
    var p := Proposal(agent, em.content, em.recipients, c.world.time);
    assert s.route(p, ViewOf(s, c.world)).extraDelay >= 0;
    hide EnqueueAll, Unhurried;
    var (c1, decision) := Route(s, c, p);
    var visibility := if em.isPrivate then Private else decision.visibility;
    var authorized := if visibility.Public? then [] else [agent] + decision.recipients;
    var c2 := Emit(c1, Draft(AgentMessage, agent, c.world.time, decision.recipients, None, visibility, authorized,
                             Said(em.content, invocation), em.delta));
    EnqueueAllLater(s, c2, Map(decision.recipients, Addressed(agent, em, decision, visibility)), decision.orderHint);
  }

  lemma TakeActionLater(s: Setup, c: Core, action: Action, delta: ResourceDelta)
    requires Unhurried(s) && Pending(c.world)
    ensures Later(c, TakeAction(s, c, action, delta))
  {
    hide ApplyChange;
    var c1 := Emit(c, PublicDraft(ActionTaken, action.actor, c.world.time, Acted(action.kind, action.args)).(delta := delta));
    match s.handle(action, ViewOf(s, c1.world)) {
      case None =>
      case Some(change) => ApplyChangeLater(s, c1, action, change);
    }
  }

  lemma TakeEmissionLater(s: Setup, m: Minds, x: Session, agent: Agent, em: Emission, invocation: nat)
    requires Unhurried(s) && Pending(x.core.world)
    ensures Later(x.core, TakeEmission(s, m, x, agent, em, invocation).core)
  {
    hide HandleMessage, TakeAction, Unhurried;
    var c := Charge(x.core, em);
    HandleMessageLater(s, c, agent, em, invocation);
    TakeActionLater(s, c, ActionOf(agent, em), em.delta);
  }

  lemma {:induction false} RunStreamLater(
      s: Setup, m: Minds, x: Session, agent: Agent, emissions: seq<Emission>, invocation: nat)
    requires Unhurried(s) && Pending(x.core.world)
    ensures Later(x.core, RunStream(s, m, x, agent, emissions, invocation).core)
    decreases |emissions|
  {
    hide TakeEmission, Unhurried, Pending;
    if |emissions| > 0 {
      TakeEmissionLater(s, m, x, agent, emissions[0], invocation);
      RunStreamLater(s, m, TakeEmission(s, m, x, agent, emissions[0], invocation), agent, emissions[1..], invocation);
    }
  }

  lemma DeliverLater(s: Setup, m: Minds, x: Session, item: Item)
    requires Unhurried(s) && Pending(x.core.world)
    ensures Later(x.core, DeliverAndInvoke(s, m, x, item).core)
  {
    hide RunStream, Unhurried, EventView;
    if item.delivery.recipient !in x.core.world.dropped && item.delivery.recipient in m.initial {
      var x1 := MaybeCheckpoint(s, m, x.(core := Hand(x.core, item)));
      var agent, d := item.delivery.recipient, item.delivery;
      var invocation := x1.driver.invocations + 1;
      var reply := m.invoke(agent, MemoOf(x1, agent), RequestFor(s, x1, agent, d, invocation));
      var core := Emit(x1.core, Draft(AgentInvoked, agent, x1.core.world.time, [], Some(EventId(x.core.journal.sequence)), Private,
                                      [agent], Invoked(invocation, d.content), NoResources));
      RunStreamLater(s, m, x1.(core := core, driver := x1.driver.(invocations := invocation), memos := x1.memos[agent := reply.memo]),
                     agent, reply.emissions, invocation);
    }
  }

  /** Whatever the agents of a batch do, everything queued after it is due later. */
  lemma {:induction false} BatchLeavesPending(s: Setup, m: Minds, x: Session, items: seq<Item>)
    requires Unhurried(s) && Pending(x.core.world)
    ensures Later(x.core, RunBatch(s, m, x, items).core)
    decreases |items|
  {
    hide DeliverAndInvoke, Unhurried, Pending;
    if |items| > 0 {
      DeliverLater(s, m, x, items[0]);
      BatchLeavesPending(s, m, DeliverAndInvoke(s, m, x, items[0]), items[1..]);
    }
  }
}
