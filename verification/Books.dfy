/** What an operation of World leaves alone: the stored checkpoints, who takes part, and the
    resources that were counted without being logged. */
module Books {
  import opened Wrappers
  import opened Contracts
  import opened KernelState
  import opened Sorting
  import opened Scheduler
  import opened Journals
  import opened WorldRules
  import opened DriverRules

  /** The database went on through states with the checkpoints it had. */
  ghost predicate SameCheckpoints(d: Disk, d': Disk) {
    && d.trail <= d'.trail && d'.tables.checkpoints == d.tables.checkpoints
    && forall i :: |d.trail| <= i < |d'.trail| ==> d'.trail[i].checkpoints == d.tables.checkpoints
  }

  ghost predicate SameBooks(c: Core, c': Core) {
    && SameCheckpoints(c.journal.disk, c'.journal.disk)
    && c'.world.dropped == c.world.dropped
    && c'.ledger.unlogged == c.ledger.unlogged
  }

  lemma BooksOn(a: Core, b: Core, c: Core)
    requires SameBooks(a, b) && SameBooks(b, c)
    ensures SameBooks(a, c)
  {
  }

  lemma EmitBooks(c: Core, d: Draft)
    ensures SameBooks(c, Emit(c, d))
  {
  }

  lemma QuietBooks(c: Core, c': Core)
    requires c'.journal == c.journal && c'.world.dropped == c.world.dropped && c'.ledger.unlogged == c.ledger.unlogged
    ensures SameBooks(c, c')
  {
  }

  lemma ApplyFaultBooks(s: Setup, c: Core, index: nat, item: Item)
    requires index < |s.faults|
    ensures SameBooks(c, ApplyFault(s, c, index, item).0)
  {
    hide Corrupt, AppliesTo, SameBooks, Emit;
    var c1 := FaultFires(s, c, index).0;
    QuietBooks(c, c1);
    var c2 := c1.(ledger := c1.ledger.(fired := Bump(c1.ledger.fired, index)));
    var d := FaultDraft(s.faults[index].kind, c1.world.time, item.delivery);
    EmitBooks(c2, d);
    QuietBooks(c, c);
    QuietBooks(c, c2);
    BooksOn(c, c2, Emit(c2, d));
    if AppliesTo(s.faults[index], item.delivery) && FaultFires(s, c, index).1 {
      QuietBooks(Emit(c2, d), ApplyFault(s, c, index, item).0);
      BooksOn(c, Emit(c2, d), ApplyFault(s, c, index, item).0);
    }
  }

  lemma {:induction false} ApplyFaultsBooks(s: Setup, c: Core, item: Item, count: nat)
    requires count <= |s.faults|
    ensures SameBooks(c, ApplyFaults(s, c, item, count).0)
  {
    hide ApplyFault;
    if count > 0 {
      ApplyFaultsBooks(s, c, item, count - 1);
      var (c1, o) := ApplyFaults(s, c, item, count - 1);
      if o.Some? {
        ApplyFaultBooks(s, c1, count - 1, o.value);
      }
    }
  }

  lemma EnqueueBooks(s: Setup, c: Core, d: Delivery, orderHint: int)
    ensures SameBooks(c, Enqueue(s, c, d, orderHint))
  {
    hide ApplyFaults;
    ApplyFaultsBooks(s, c, Scheduled(s, c.world, d, orderHint), |s.faults|);
  }

  lemma {:induction false} EnqueueAllBooks(s: Setup, c: Core, ds: seq<Delivery>, orderHint: int)
    ensures SameBooks(c, EnqueueAll(s, c, ds, orderHint))
  {
    hide Enqueue;
    if |ds| > 0 {
      EnqueueAllBooks(s, c, ds[..|ds| - 1], orderHint);
      EnqueueBooks(s, EnqueueAll(s, c, ds[..|ds| - 1], orderHint), ds[|ds| - 1], orderHint);
    }
  }

  lemma ApplyChangeBooks(s: Setup, c: Core, action: Action, change: Change)
    ensures SameBooks(c, ApplyChange(s, c, action, change))
  {
    hide EnqueueAll, GrantFacts;
    var c1 := c.(world := c.world.(
      state := c.world.state + change.updates,
      privateFacts := GrantFacts(c.world.privateFacts, change.factsTo)));
    EnqueueAllBooks(s, c1, change.messages, 0);
  }

  lemma RouteBooks(s: Setup, c: Core, p: Proposal)
    ensures SameBooks(c, Route(s, c, p).0)
  {
  }

  lemma HandleMessageBooks(s: Setup, c: Core, agent: Agent, em: Emission, invocation: nat)
    ensures SameBooks(c, HandleMessage(s, c, agent, em, invocation))
  {
    hide EnqueueAll, SameBooks, Emit, Route;
    var p := Proposal(agent, em.content, em.recipients, c.world.time);
    RouteBooks(s, c, p);
    var (c1, decision) := Route(s, c, p);
    var visibility := if em.isPrivate then Private else decision.visibility;
    var authorized := if visibility.Public? then [] else [agent] + decision.recipients;
    var d := Draft(AgentMessage, agent, c.world.time, decision.recipients, None, visibility, authorized,
                   Said(em.content, invocation), em.delta);
    EmitBooks(c1, d);
    BooksOn(c, c1, Emit(c1, d));
    var ds := Map(decision.recipients, Addressed(agent, em, decision, visibility));
    EnqueueAllBooks(s, Emit(c1, d), ds, decision.orderHint);
    BooksOn(c, Emit(c1, d), EnqueueAll(s, Emit(c1, d), ds, decision.orderHint));
  }

  lemma TakeActionBooks(s: Setup, c: Core, action: Action, delta: ResourceDelta)
    ensures SameBooks(c, TakeAction(s, c, action, delta))
  {
    hide ApplyChange;
    var c1 := Emit(c, PublicDraft(ActionTaken, action.actor, c.world.time, Acted(action.kind, action.args)).(delta := delta));
    match s.handle(action, ViewOf(s, c1.world)) {
      case None =>
      case Some(change) => ApplyChangeBooks(s, c1, action, change);
    }
  }

  lemma HandleEmissionBooks(s: Setup, c: Core, agent: Agent, em: Emission, invocation: nat)
    ensures SameBooks(c, HandleEmission(s, c, agent, em, invocation))
  {
    hide HandleMessage, TakeAction;
    HandleMessageBooks(s, c, agent, em, invocation);
    TakeActionBooks(s, c, ActionOf(agent, em), em.delta);
  }

  lemma HandBooks(c: Core, item: Item)
    ensures SameBooks(c, Hand(c, item))
  {
  }

  lemma AdvanceBooks(c: Core, time: int)
    ensures SameBooks(c, AdvanceTo(c, time))
  {
  }
}
