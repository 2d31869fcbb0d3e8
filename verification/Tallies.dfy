/** Nothing that is sent gets lost unannounced: for each recipient, what was scheduled for it and what
    the log says was dropped on its way add up to what was sent to it. */
module Tallies {
  import opened Wrappers
  import opened Contracts
  import opened KernelState
  import opened Sorting
  import opened Scheduler
  import opened Journals
  import opened WorldRules
  import opened DriverRules
  import opened Messages
  import opened Changes

  /** On its way to an agent, and no copy. */
  function Original(to: Agent): Item -> bool {
    (i: Item) => i.duplicate == 0 && i.delivery.recipient == to
  }

  /** A record that a delivery to an agent was dropped. */
  function LossFor(to: Agent): Event -> bool {
    (e: Event) => e.body.Fault? && e.body.fault.DropMessage? && e.body.recipient == to
  }

  /** What is on its way to an agent, and what was dropped on that way. */
  function Tally(c: Core, to: Agent): nat {
    |Filter(c.world.queue, Original(to))| + |Filter(c.Events(), LossFor(to))|
  }

  lemma PostTally(c: Core, item: Item, to: Agent)
    ensures Tally(Post(c, item), to) == Tally(c, to) + (if Original(to)(item) then 1 else 0)
  {
    FilterSnoc(c.world.queue, item, Original(to));
  }

  lemma EmitTally(c: Core, d: Draft, to: Agent)
    ensures Tally(Emit(c, d), to)
         == Tally(c, to) + (if d.body.Fault? && d.body.fault.DropMessage? && d.body.recipient == to then 1 else 0)
  {
    FilterSnoc(c.Events(), Stamp(c.journal.attempt, c.journal.sequence, c.journal.index, d), LossFor(to));
  }

  lemma SameTally(c: Core, c': Core, to: Agent)
    requires c'.world.queue == c.world.queue && c'.Events() == c.Events()
    ensures Tally(c', to) == Tally(c, to)
  {
  }

  lemma FaultTally(s: Setup, c: Core, index: nat, item: Item, to: Agent)
    requires index < |s.faults| && item.duplicate == 0
    ensures var (c', o) := ApplyFault(s, c, index, item);
      && (o.Some? ==> o.value.duplicate == 0 && o.value.delivery.recipient == item.delivery.recipient)
      && Tally(c', to) + (if o.Some? && item.delivery.recipient == to then 1 else 0)
           == Tally(c, to) + (if item.delivery.recipient == to then 1 else 0)
  {
    hide Tally, Emit, Post, Bump, Reverse, AppliesTo;
    var fault := s.faults[index];
    if AppliesTo(fault, item.delivery) {
      var (c1, fires) := FaultFires(s, c, index);
      SameTally(c, c1, to);
      if fires {
        var c2 := c1.(ledger := c1.ledger.(fired := Bump(c1.ledger.fired, index)));
        SameTally(c1, c2, to);
        var draft := FaultDraft(fault.kind, c1.world.time, item.delivery);
        EmitTally(c2, draft, to);
        if fault.kind.DuplicateMessage? {
          var c3 := Post(Emit(c2, draft), item.(duplicate := 1));
          PostTally(Emit(c2, draft), item.(duplicate := 1), to);
          SameTally(c3, c3.(world := c3.world.(counters := c3.world.counters.(duplicates := c3.world.counters.duplicates + 1))), to);
        }
      }
    }
  }

  lemma {:induction false} FaultsTally(s: Setup, c: Core, item: Item, count: nat, to: Agent)
    requires count <= |s.faults| && item.duplicate == 0
    ensures var (c', o) := ApplyFaults(s, c, item, count);
      && (o.Some? ==> o.value.duplicate == 0 && o.value.delivery.recipient == item.delivery.recipient)
      && Tally(c', to) + (if o.Some? && item.delivery.recipient == to then 1 else 0)
           == Tally(c, to) + (if item.delivery.recipient == to then 1 else 0)
  {
    hide ApplyFault, Tally;
    if count > 0 {
      FaultsTally(s, c, item, count - 1, to);
      var (c', o) := ApplyFaults(s, c, item, count - 1);
      if o.Some? {
        FaultTally(s, c', count - 1, o.value, to);
      }
    }
  }

  /** One delivery: one more for its recipient, if it is permitted. */
  lemma EnqueueTally(s: Setup, c: Core, d: Delivery, orderHint: int, to: Agent)
    ensures Tally(Enqueue(s, c, d, orderHint), to)
         == Tally(c, to) + (if Deliverable(s, c.world.dropped, d) && d.recipient == to then 1 else 0)
  {
    hide ApplyFaults, Tally, Emit, Post, Utf8Size, ResourceDelta.Plus, Setup.AgentIds;
    if Deliverable(s, c.world.dropped, d) {
      var item := Scheduled(s, c.world, d, orderHint);
      FaultsTally(s, c, item, |s.faults|, to);
      var (c', o) := ApplyFaults(s, c, item, |s.faults|);
      if o.Some? {
        PostTally(c', o.value, to);
        SameTally(Post(c', o.value), Accept(c', o.value, Utf8Size(d.content)), to);
      }
    } else {
      RefusalTally(c, "unknown_recipient", d.recipient, 0, to);
      RefusalTally(c, "recipient_dropped_out", d.recipient, 0, to);
      RefusalTally(c, "max_message_bytes", "bytes", Utf8Size(d.content), to);
    }
  }

  lemma RefusalTally(c: Core, rule: string, subject: string, amount: int, to: Agent)
    ensures Tally(PolicyEvent(c, rule, subject, amount), to) == Tally(c, to)
  {
    EmitTally(c, PublicDraft(PolicyDecided, WORLD_ACTOR, c.world.time, Policy(rule, false, subject, amount)), to);
  }

  /** How many of the deliveries are for an agent and permitted. */
  function Due(s: Setup, dropped: set<Agent>, ds: seq<Delivery>, to: Agent): nat {
    if |ds| == 0 then 0
    else Due(s, dropped, ds[..|ds| - 1], to)
         + (if Deliverable(s, dropped, ds[|ds| - 1]) && ds[|ds| - 1].recipient == to then 1 else 0)
  }

  lemma {:induction false} EnqueueAllTally(s: Setup, c: Core, ds: seq<Delivery>, orderHint: int, to: Agent)
    ensures Tally(EnqueueAll(s, c, ds, orderHint), to) == Tally(c, to) + Due(s, c.world.dropped, ds, to)
  {
    hide Enqueue, Tally, Deliverable;
    if |ds| > 0 {
      EnqueueAllTally(s, c, ds[..|ds| - 1], orderHint, to);
      EnqueueAllWorld(s, c, ds[..|ds| - 1], orderHint);
      EnqueueTally(s, EnqueueAll(s, c, ds[..|ds| - 1], orderHint), ds[|ds| - 1], orderHint, to);
    }
  }

  lemma {:induction false} DueToAll(s: Setup, dropped: set<Agent>, recipients: seq<Agent>, f: Agent -> Delivery, size: nat, to: Agent)
    requires forall r :: r in recipients ==>
      f(r).recipient == r && Utf8Size(f(r).content) == size && r in s.AgentIds() && r !in dropped
    ensures Due(s, dropped, Map(recipients, f), to) == if size <= s.maxMessageBytes then multiset(recipients)[to] else 0
  {
    hide Utf8Size, Setup.AgentIds;
    if |recipients| > 0 {
      var n := |recipients| - 1;
      assert recipients == recipients[..n] + [recipients[n]];
      DueToAll(s, dropped, recipients[..n], f, size, to);
      assert Map(recipients, f)[..n] == Map(recipients[..n], f);
    }
  }

  /** A message of an agent: one for each time the recipient is among those it reaches, unless the
      topology blocked it or it is too long. */
  lemma MessageTally(s: Setup, c: Core, agent: Agent, em: Emission, invocation: nat, to: Agent)
    ensures var r := Route(s, c, Proposal(agent, em.content, em.recipients, c.world.time)).1;
      Tally(HandleMessage(s, c, agent, em, invocation), to) == Tally(c, to)
        + (if r.blocked == "" && Utf8Size(em.content) <= s.maxMessageBytes then multiset(r.recipients)[to] else 0)
  {
    var p := Proposal(agent, em.content, em.recipients, c.world.time);
    var (c1, r) := Route(s, c, p);
    RouteTally(s, c, p, to);
    var visibility := if em.isPrivate then Private else r.visibility;
    var authorized := if visibility.Public? then [] else [agent] + r.recipients;
    var d := Draft(AgentMessage, agent, c.world.time, r.recipients, None, visibility, authorized, Said(em.content, invocation), em.delta);
    EmitTally(c1, d, to);
    var c2 := Emit(c1, d);
    var f := Addressed(agent, em, r, visibility);
    hide Route, EnqueueAll, Tally, Due, Utf8Size, Setup.AgentIds;
    EnqueueAllTally(s, c2, Map(r.recipients, f), r.orderHint, to);
    DueToAll(s, c2.world.dropped, r.recipients, f, Utf8Size(em.content), to);
  }

  lemma RouteTally(s: Setup, c: Core, p: Proposal, to: Agent)
    ensures var (c', r) := Route(s, c, p);
      && Tally(c', to) == Tally(c, to) && c'.world == c.world
      && forall a :: a in r.recipients ==> a in s.AgentIds() && a !in c.world.dropped
  {
    RouteRemarks(s, c, p);
    FilterElements(s.route(p, ViewOf(s, c.world)).recipients, Reachable(s, c.world.dropped));
    RefusalTally(c, "broadcast_not_allowed", p.actor, 0, to);
    hide Filter, Setup.AgentIds, Tally, PolicyEvent, ViewOf;
    var known := Filter(s.route(p, ViewOf(s, c.world)).recipients, Reachable(s, c.world.dropped));
    assert forall a :: a in known ==> Reachable(s, c.world.dropped)(a);
    assert forall a :: a in Route(s, c, p).1.recipients ==> a in known;
  }

  /** A change of the world that is not rejected: one for each of its messages that is permitted. */
  lemma ChangeTally(s: Setup, c: Core, action: Action, change: Change, to: Agent)
    ensures Tally(ApplyChange(s, c, action, change), to)
         == Tally(c, to) + (if change.rejected == "" then Due(s, c.world.dropped, change.messages, to) else 0)
  {
    hide EnqueueAll, GrantFacts, Tally, Emit, Due;
    if change.rejected != "" {
      RefusalTally(c, "action_rejected", change.rejected, 0, to);
    } else {
      var c1 := c.(world := c.world.(
        state := c.world.state + change.updates,
        privateFacts := GrantFacts(c.world.privateFacts, change.factsTo)));
      SameTally(c, c1, to);
      EnqueueAllTally(s, c1, change.messages, 0, to);
      var c2 := EnqueueAll(s, c1, change.messages, 0);
      var c3 := if change.finished
                then c2.(world := c2.world.(
                       finished := true,
                       finishReason := if change.note != "" then change.note else "action:" + action.kind))
                else c2;
      SameTally(c2, c3, to);
      EmitTally(c3, ChangedDraft(action, change, c3.world.time), to);
    }
  }
}
