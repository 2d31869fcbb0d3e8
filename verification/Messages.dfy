/** What becomes of a message an agent sends: whom it reaches, who may read it when it is sent and
    when it is delivered, and when it arrives. */
module Messages {
  import opened Wrappers
  import opened Contracts
  import opened KernelState
  import opened Sorting
  import opened Scheduler
  import opened Journals
  import opened WorldRules
  import opened DriverRules
  import opened FaultFold
  import opened Chronicle

  // ---- routing ----

  function TakingPart(s: Setup, dropped: set<Agent>): Agent -> bool {
    (a: Agent) => a in s.AgentIds() && a !in dropped
  }

  /** A message reaches those the topology decided on that are in the run and take part, in its
      order; where broadcasts are not allowed, the first of them only, and a policy event says so.
      What else the topology decided stays. */
  lemma WhomItReaches(s: Setup, c: Core, p: Proposal)
    ensures var decided := s.route(p, ViewOf(s, c.world));
      var known := Filter(decided.recipients, TakingPart(s, c.world.dropped));
      var (c', r) := Route(s, c, p);
      && r == decided.(recipients := r.recipients)
      && (s.broadcastAllowed || |known| <= 1 ==> r.recipients == known && c' == c)
      && (!s.broadcastAllowed && |known| > 1 ==>
            && r.recipients == [known[0]] && c'.world == c.world && |c'.Events()| == |c.Events()| + 1
            && c'.Events()[|c.Events()|].body == Policy("broadcast_not_allowed", false, p.actor, 0))
  {
    SamePartFilter(s.route(p, ViewOf(s, c.world)).recipients, s, c.world.dropped);
    hide Filter, Setup.AgentIds;
  }

  lemma {:induction false} SamePartFilter(agents: seq<Agent>, s: Setup, dropped: set<Agent>)
    ensures Filter(agents, Reachable(s, dropped)) == Filter(agents, TakingPart(s, dropped))
  {
    if |agents| > 0 {
      SamePartFilter(agents[..|agents| - 1], s, dropped);
    }
  }

  // ---- what is queued ----

  /** An item that carries the delivery, perhaps later and corrupted, perhaps as a copy: corrupted,
      its content is as it was or reversed, and its payload as it was or gone. */
  ghost predicate Carries(i: Item, d: Delivery, orderHint: int) {
    && (i.delivery.content == d.content || i.delivery.content == Reverse(d.content))
    && (i.delivery.payload == d.payload || i.delivery.payload == map[])
    && i.delivery.sender == d.sender && i.delivery.recipient == d.recipient && i.delivery.visibility == d.visibility
    && i.delivery.extraDelay == d.extraDelay && i.orderHint == orderHint
  }

  lemma {:induction false} CopiesCarry(s: Setup, c: Core, item: Item, n: nat)
    requires n <= |s.faults|
    ensures forall i :: i in Copies(s, c, item, n) ==> Carries(i, item.delivery, item.orderHint)
  {
    hide Delay, Corruptions, HitBy, Reverse;
    if n > 0 {
      CopiesCarry(s, c, item, n - 1);
    }
  }

  lemma ShapeCarries(s: Setup, c: Core, item: Item, n: nat)
    requires n <= |s.faults|
    ensures Carries(Shape(s, c, item, n), item.delivery, item.orderHint)
  {
    hide Delay, Corruptions, Reverse;
  }

  /** What scheduling one delivery adds to the queue carries it; a delivery that is not permitted adds nothing. */
  lemma EnqueueCarries(s: Setup, c: Core, d: Delivery, orderHint: int) returns (more: seq<Item>)
    ensures Enqueue(s, c, d, orderHint).world.queue == c.world.queue + more
    ensures forall i :: i in more ==> Carries(i, d, orderHint)
    ensures !Deliverable(s, c.world.dropped, d) ==> more == []
    ensures Enqueue(s, c, d, orderHint).world.time == c.world.time && Enqueue(s, c, d, orderHint).world.dropped == c.world.dropped
    ensures Enqueue(s, c, d, orderHint).world.state == c.world.state
  {
    hide Enqueue, Copies, Extent, Lost, Shape, Counted, Records, RecordAll, Deliverable, Utf8Size, Carries, Hit;
    EnqueueWorld(s, c, d, orderHint);
    if Deliverable(s, c.world.dropped, d) {
      var item, n := Item(c.world.time + s.latency + d.extraDelay, orderHint, d, 0), |s.faults|;
      EnqueueClosedForm(s, c, d, orderHint);
      CopiesCarry(s, c, item, Extent(s, c, d, n));
      ShapeCarries(s, c, item, n);
      var last := if Lost(s, c, d, n) then [] else [Shape(s, c, item, n)];
      more := Copies(s, c, item, Extent(s, c, d, n)) + last;
      assert c.world.queue + Copies(s, c, item, Extent(s, c, d, n)) + last == c.world.queue + more;
    } else {
      RefusedDelivery(s, c, d, orderHint);
      more := [];
      assert c.world.queue + [] == c.world.queue;
    }
  }

  lemma EnqueueWorld(s: Setup, c: Core, d: Delivery, orderHint: int)
    ensures var w := Enqueue(s, c, d, orderHint).world;
      w.time == c.world.time && w.dropped == c.world.dropped && w.state == c.world.state
  {
    hide ApplyFaults, Utf8Size, ResourceDelta.Plus;
    FaultsWorld(s, c, Scheduled(s, c.world, d, orderHint), |s.faults|);
  }

  lemma {:induction false} FaultsWorld(s: Setup, c: Core, item: Item, n: nat)
    requires n <= |s.faults|
    ensures var w := ApplyFaults(s, c, item, n).0.world;
      w.time == c.world.time && w.dropped == c.world.dropped && w.state == c.world.state
  {
    FoldClosedForm(s, c, item, n);
    hide ApplyFaults, Counted, Copies, Records, RecordAll, Lost, Extent, Shape;
  }

  lemma {:induction false} Uncorrupted(s: Setup, c: Core, d: Delivery, n: nat)
    requires n <= |s.faults| && forall f :: f in s.faults ==> !f.kind.CorruptMessage?
    ensures Corruptions(s, c, d, n) == 0
  {
    hide Hit;
    if n > 0 {
      Uncorrupted(s, c, d, n - 1);
      assert s.faults[n - 1] in s.faults;
    }
  }

  lemma {:induction false} CopiesIntact(s: Setup, c: Core, item: Item, n: nat)
    requires n <= |s.faults| && forall f :: f in s.faults ==> !f.kind.CorruptMessage?
    ensures forall i :: i in Copies(s, c, item, n) ==> i.delivery == item.delivery
  {
    hide Delay, Corruptions, HitBy, Reverse;
    if n > 0 {
      CopiesIntact(s, c, item, n - 1);
      Uncorrupted(s, c, item.delivery, n - 1);
    }
  }

  /** Without corruption faults what is queued for a delivery is the delivery itself. */
  lemma QueuedIntact(s: Setup, c: Core, d: Delivery, orderHint: int) returns (more: seq<Item>)
    requires forall f :: f in s.faults ==> !f.kind.CorruptMessage?
    ensures Enqueue(s, c, d, orderHint).world.queue == c.world.queue + more
    ensures forall i :: i in more ==> i.delivery == d && i.orderHint == orderHint
  {
    more := EnqueueCarries(s, c, d, orderHint);
    if Deliverable(s, c.world.dropped, d) {
      var item, n := Item(c.world.time + s.latency + d.extraDelay, orderHint, d, 0), |s.faults|;
      EnqueueClosedForm(s, c, d, orderHint);
      CopiesIntact(s, c, item, Extent(s, c, d, n));
      Uncorrupted(s, c, d, n);
      hide Copies, Extent, Lost, Delay, Corruptions, Reverse, Counted, Records, RecordAll, Deliverable, Utf8Size, Enqueue, Carries;
      var parts := Copies(s, c, item, Extent(s, c, d, n)) + (if Lost(s, c, d, n) then [] else [Shape(s, c, item, n)]);
      assert c.world.queue + parts == c.world.queue + Copies(s, c, item, Extent(s, c, d, n)) + (if Lost(s, c, d, n) then [] else [Shape(s, c, item, n)]);
      SameRest(c.world.queue, more, parts);
    }
  }

  lemma SameRest(front: seq<Item>, a: seq<Item>, b: seq<Item>)
    requires front + a == front + b
    ensures a == b
  {
    assert a == (front + a)[|front|..] && b == (front + b)[|front|..];
  }

  /** So for several deliveries. */
  lemma {:induction false} EnqueueAllCarries(s: Setup, c: Core, ds: seq<Delivery>, orderHint: int) returns (more: seq<Item>)
    ensures EnqueueAll(s, c, ds, orderHint).world.queue == c.world.queue + more
    ensures forall i :: i in more ==> exists d :: d in ds && Carries(i, d, orderHint)
  {
    hide Enqueue, Carries;
    if |ds| == 0 {
      more := [];
      assert c.world.queue + [] == c.world.queue;
    } else {
      var front, last := ds[..|ds| - 1], ds[|ds| - 1];
      assert last in ds && forall d :: d in front ==> d in ds;
      var some := EnqueueAllCarries(s, c, front, orderHint);
      var rest := EnqueueCarries(s, EnqueueAll(s, c, front, orderHint), last, orderHint);
      more := some + rest;
      assert c.world.queue + some + rest == c.world.queue + more;
    }
  }

  // ---- the message ----

  /** A message in the log: who sent it to whom, in which invocation, and who may read it. */
  ghost predicate SentAs(e: Event, agent: Agent, em: Emission, to: seq<Agent>, invocation: nat) {
    && e.kind.AgentMessage? && e.actor == agent && e.targets == to && e.body == Said(em.content, invocation) && e.delta == em.delta
    && (em.isPrivate ==> !e.visibility.Public? && !e.visibility.OmniscientOnly?)
    && (!e.visibility.Public? && !e.visibility.OmniscientOnly? ==> e.authorized == [agent] + to)
  }

  /** A fault or a policy event. */
  ghost predicate Remark(e: Event) {
    (e.kind.PolicyDecided? && e.body.Policy?) || (e.kind.FaultInjected? && e.body.Fault?)
  }

  ghost predicate OnlyRemarks(c: Core, c': Core) {
    c.Events() <= c'.Events() && forall i :: |c.Events()| <= i < |c'.Events()| ==> Remark(c'.Events()[i])
  }

  lemma {:induction false} RecordsRemark(c: Core, c': Core, s: Setup, c0: Core, d: Delivery, n: nat)
    requires n <= |s.faults| && c'.journal == RecordAll(c.journal, Records(s, c0, d, n))
    ensures OnlyRemarks(c, c')
    decreases n
  {
    hide Hit;
    if n > 0 {
      var c1 := c'.(journal := RecordAll(c.journal, Records(s, c0, d, n - 1)));
      RecordsRemark(c, c1, s, c0, d, n - 1);
      if Hit(s, c0, d, n - 1) {
        assert Records(s, c0, d, n)[..|Records(s, c0, d, n - 1)|] == Records(s, c0, d, n - 1);
      } else {
        assert Records(s, c0, d, n) == Records(s, c0, d, n - 1);
      }
    }
  }

  lemma EnqueueRemarks(s: Setup, c: Core, d: Delivery, orderHint: int)
    ensures OnlyRemarks(c, Enqueue(s, c, d, orderHint))
  {
    hide Enqueue, Deliverable, Extent, Records, RecordAll, Counted, Copies, Lost, Shape;
    if Deliverable(s, c.world.dropped, d) {
      EnqueueClosedForm(s, c, d, orderHint);
      RecordsRemark(c, Enqueue(s, c, d, orderHint), s, c, d, Extent(s, c, d, |s.faults|));
    } else {
      RefusedDelivery(s, c, d, orderHint);
    }
  }

  lemma {:induction false} EnqueueAllRemarks(s: Setup, c: Core, ds: seq<Delivery>, orderHint: int)
    ensures OnlyRemarks(c, EnqueueAll(s, c, ds, orderHint))
  {
    hide Enqueue, Remark;
    if |ds| > 0 {
      EnqueueAllRemarks(s, c, ds[..|ds| - 1], orderHint);
      EnqueueRemarks(s, EnqueueAll(s, c, ds[..|ds| - 1], orderHint), ds[|ds| - 1], orderHint);
    }
  }

  lemma RouteRemarks(s: Setup, c: Core, p: Proposal)
    ensures OnlyRemarks(c, Route(s, c, p).0) && Route(s, c, p).0.world == c.world
  {
    hide Filter;
  }

  /** Queued for a message of an agent: to one of those it reaches, with the hint and the delay the
      topology gives, and what it says and carries as it was sent, or corrupted. */
  ghost predicate QueuedFor(i: Item, agent: Agent, em: Emission, to: Decision, visibility: Visibility) {
    && i.delivery.sender == agent && i.delivery.recipient in to.recipients && i.delivery.visibility == visibility
    && (i.delivery.content == em.content || i.delivery.content == Reverse(em.content))
    && (i.delivery.payload == em.action || i.delivery.payload == map[])
    && i.delivery.extraDelay == to.extraDelay && i.orderHint == to.orderHint
  }

  /** A message an agent sends. One event says what it said to those it reaches; it is private if the
      agent wants it so, and otherwise as the topology decided. What is queued for it is for those
      alone, by that agent, with the same visibility, hint and extra delay; and nothing, if the
      topology blocked it. Beside it only faults and policy events are logged. */
  lemma SentMessage(s: Setup, c: Core, agent: Agent, em: Emission, invocation: nat) returns (n: nat, more: seq<Item>)
    ensures var c', to := HandleMessage(s, c, agent, em, invocation), Route(s, c, Proposal(agent, em.content, em.recipients, c.world.time)).1;
      var log := c'.Events();
      && c.Events() <= log && |c.Events()| <= n < |log| && SentAs(log[n], agent, em, to.recipients, invocation)
      && log[n].time == c.world.time
      && (!em.isPrivate ==> log[n].visibility == to.visibility)
      && (forall i :: |c.Events()| <= i < |log| && i != n ==> Remark(log[i]))
      && c'.world.queue == c.world.queue + more
      && (to.blocked != "" ==> more == [])
      && forall i :: i in more ==> QueuedFor(i, agent, em, to, log[n].visibility)
  {
    hide Route, EnqueueAll, Carries, Reverse;
    var p := Proposal(agent, em.content, em.recipients, c.world.time);
    WhomItReaches(s, c, p);
    RouteRemarks(s, c, p);
    var (c1, to) := Route(s, c, p);
    var visibility := if em.isPrivate then Private else to.visibility;
    var authorized := if visibility.Public? then [] else [agent] + to.recipients;
    var c2 := Emit(c1, Draft(AgentMessage, agent, c.world.time, to.recipients, None, visibility, authorized, Said(em.content, invocation), em.delta));
    var ds := Map(to.recipients, Addressed(agent, em, to, visibility));
    n := |c1.Events()|;
    if to.blocked != "" {
      more := [];
      assert c.world.queue + [] == c.world.queue;
    } else {
      EnqueueAllRemarks(s, c2, ds, to.orderHint);
      more := EnqueueAllCarries(s, c2, ds, to.orderHint);
      forall i | i in more ensures QueuedFor(i, agent, em, to, visibility) {
        CarriedTo(i, agent, em, to, visibility, ds);
      }
    }
  }

  lemma CarriedTo(i: Item, agent: Agent, em: Emission, to: Decision, visibility: Visibility, ds: seq<Delivery>)
    requires ds == Map(to.recipients, Addressed(agent, em, to, visibility))
    requires exists d :: d in ds && Carries(i, d, to.orderHint)
    ensures QueuedFor(i, agent, em, to, visibility)
  {
    hide Reverse;
    var d :| d in ds && Carries(i, d, to.orderHint);
    var k :| 0 <= k < |ds| && ds[k] == d;
    assert to.recipients[k] in to.recipients;
  }

  /** The reader of a private message is the omniscient view, its sender or one it reaches; and when
      what was queued for it is delivered, the omniscient view, the sender or the recipient. */
  lemma PrivateMessage(s: Setup, c: Core, agent: Agent, em: Emission, invocation: nat, view: string) returns (n: nat, more: seq<Item>)
    requires em.isPrivate
    ensures var c', to := HandleMessage(s, c, agent, em, invocation), Route(s, c, Proposal(agent, em.content, em.recipients, c.world.time)).1;
      && |c.Events()| <= n < |c'.Events()| && c'.Events()[n].body == Said(em.content, invocation)
      && (c'.Events()[n].Project(view).Some? <==> view == OMNISCIENT_VIEW || (view != PUBLIC_VIEW && view in [agent] + to.recipients))
      && (forall i :: |c.Events()| <= i < |c'.Events()| && i != n ==> !c'.Events()[i].body.Said?)
      && c'.world.queue == c.world.queue + more
      && forall i, later: Core :: i in more ==>
           var e := Hand(later, i).Events()[|later.Events()|];
           e.Project(view).Some? <==> view == OMNISCIENT_VIEW || (view != PUBLIC_VIEW && (view == agent || view == i.delivery.recipient))
  {
    var c' := HandleMessage(s, c, agent, em, invocation);
    n, more := SentMessage(s, c, agent, em, invocation);
    hide HandleMessage, Route;
    forall i, later: Core | i in more
      ensures var e := Hand(later, i).Events()[|later.Events()|];
        e.Project(view).Some? <==> view == OMNISCIENT_VIEW || (view != PUBLIC_VIEW && (view == agent || view == i.delivery.recipient))
    {
      HandedTo(later, i, view);
    }
  }

  /** The event that hands a non-public item over is for the two ends of the delivery alone. */
  lemma HandedTo(c: Core, item: Item, view: string)
    requires !item.delivery.visibility.Public? && !item.delivery.visibility.OmniscientOnly?
    ensures var e := Hand(c, item).Events()[|c.Events()|];
      && e.kind.MessageDelivered? && e.body == Delivered(item.delivery.sender, item.delivery.recipient, item.delivery.content, item.delivery.payload)
      && (e.Project(view).Some? <==>
            view == OMNISCIENT_VIEW || (view != PUBLIC_VIEW && (view == item.delivery.sender || view == item.delivery.recipient)))
  {
  }
}
