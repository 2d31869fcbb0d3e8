/** What an agent does when it is heard: each emission, in its order, leaves one event that says what
    it was; each delivery of a batch is made, in its order; and no delivery waits a whole clock
    step longer than it should. */
module Performance {
  import opened Wrappers
  import opened Contracts
  import opened KernelState
  import opened Sorting
  import opened Scheduler
  import opened Journals
  import opened WorldRules
  import opened DriverRules
  import opened DriverInvariants
  import opened Punctuality
  import opened Invariants
  import opened Resumption
  import opened FaultFold
  import opened Messages
  import opened Changes

  // ---- what goes on in the background ----

  predicate Aside(kind: EventKind) {
    kind.FaultInjected? || kind.PolicyDecided? || kind.StateChanged?
  }

  ghost predicate SamePlace(w: WorldState, w': WorldState) {
    w'.time == w.time && w'.dropped == w.dropped
  }

  /** Nothing was handed over and nobody spoke; the clock stood still, and nobody dropped out. */
  ghost predicate Background(c: Core, c': Core) {
    && c.Events() <= c'.Events() && c'.ledger.handed == c.ledger.handed && SamePlace(c.world, c'.world)
    && forall i :: |c.Events()| <= i < |c'.Events()| ==> Aside(c'.Events()[i].kind)
  }

  lemma {:induction false} FaultsHandNothing(s: Setup, c: Core, item: Item, count: nat)
    requires count <= |s.faults|
    ensures ApplyFaults(s, c, item, count).0.ledger.handed == c.ledger.handed
  {
    hide Corrupt, AppliesTo, Bump;
    if count > 0 {
      FaultsHandNothing(s, c, item, count - 1);
    }
  }

  lemma EnqueueInBackground(s: Setup, c: Core, d: Delivery, orderHint: int)
    ensures Background(c, Enqueue(s, c, d, orderHint))
  {
    EnqueueRemarks(s, c, d, orderHint);
    EnqueueWorld(s, c, d, orderHint);
    FaultsHandNothing(s, c, Scheduled(s, c.world, d, orderHint), |s.faults|);
    hide ApplyFaults, Utf8Size, ResourceDelta.Plus;
  }

  lemma {:induction false} EnqueueAllInBackground(s: Setup, c: Core, ds: seq<Delivery>, orderHint: int)
    ensures Background(c, EnqueueAll(s, c, ds, orderHint))
  {
    hide Enqueue;
    if |ds| > 0 {
      EnqueueAllInBackground(s, c, ds[..|ds| - 1], orderHint);
      EnqueueInBackground(s, EnqueueAll(s, c, ds[..|ds| - 1], orderHint), ds[|ds| - 1], orderHint);
    }
  }

  lemma ApplyChangeInBackground(s: Setup, c: Core, action: Action, change: Change)
    ensures Background(c, ApplyChange(s, c, action, change))
  {
    hide EnqueueAll, GrantFacts;
    var c1 := c.(world := c.world.(
      state := c.world.state + change.updates,
      privateFacts := GrantFacts(c.world.privateFacts, change.factsTo)));
    EnqueueAllInBackground(s, c1, change.messages, 0);
  }

  lemma RouteInBackground(s: Setup, c: Core, p: Proposal)
    ensures Background(c, Route(s, c, p).0)
  {
    hide Filter;
  }

  // ---- what was said and done ----

  function Spoken(): Event -> bool {
    (e: Event) => e.kind.AgentMessage? || e.kind.AgentFinal? || e.kind.AgentError? || e.kind.ToolCalled? || e.kind.ActionTaken?
  }

  /** All that agents said and did, in order. */
  function Utterances(log: seq<Event>): seq<Event> {
    Filter(log, Spoken())
  }

  /** The checkpoints a log records. */
  function Noted(log: seq<Event>): seq<Event> {
    Filter(log, IsSnapshot())
  }

  lemma UtteranceSnoc(log: seq<Event>, e: Event)
    ensures Utterances(log + [e]) == Utterances(log) + (if Spoken()(e) then [e] else [])
    ensures Deliveries(log + [e]) == Deliveries(log) + (if e.kind.MessageDelivered? then [e] else [])
    ensures Noted(log + [e]) == Noted(log) + (if e.kind.SnapshotCreated? then [e] else [])
  {
    FilterSnoc(log, e, Spoken());
    FilterSnoc(log, e, IsSnapshot());
    FilterSnoc(log, e, IsDelivery());
  }

  lemma {:induction false} BackgroundIsSilent(c: Core, c': Core)
    requires Background(c, c')
    ensures Utterances(c'.Events()) == Utterances(c.Events()) && Deliveries(c'.Events()) == Deliveries(c.Events())
    ensures Noted(c'.Events()) == Noted(c.Events())
  {
    var more := c'.Events()[|c.Events()|..];
    assert c'.Events() == c.Events() + more;
    forall e | e in more ensures Aside(e.kind) {
      var i :| 0 <= i < |more| && more[i] == e;
      assert c'.Events()[|c.Events()| + i] == e;
    }
    FilterConcat(c.Events(), more, Spoken());
    FilterConcat(c.Events(), more, IsDelivery());
    FilterNone(more, Spoken());
    FilterNone(more, IsDelivery());
    FilterConcat(c.Events(), more, IsSnapshot());
    FilterNone(more, IsSnapshot());
    hide Filter;
    assert Noted(c.Events()) + [] == Noted(c.Events());
    assert Utterances(c.Events()) + [] == Utterances(c.Events());
    assert Deliveries(c.Events()) + [] == Deliveries(c.Events());
  }

  /** The event an emission leaves. An error carries no resources. */
  ghost predicate Utters(e: Event, agent: Agent, em: Emission, invocation: nat) {
    && e.actor == agent && e.delta == (if em.kind.EmitError? then NoResources else em.delta)
    && match em.kind
       case EmitMessage => e.kind.AgentMessage? && e.body == Said(em.content, invocation)
       case EmitFinal => e.kind.AgentFinal? && e.body == Said(em.content, invocation)
       case EmitError => e.kind.AgentError? && e.body == Failed(em.content)
       case EmitToolCall => e.kind.ToolCalled? && e.body == ToolUse(em.tool, em.toolArgs)
       case EmitAction => e.kind.ActionTaken? && e.body.Acted? && Does(e.body.action, e.body.args, em.action)
  }

  /** An action is what its `kind` says, or nothing in particular; all else are its arguments. */
  ghost predicate Does(action: string, args: Facts, wanted: Facts) {
    && action == (if "kind" in wanted then wanted["kind"] else "noop")
    && (forall k :: k in args <==> k in wanted && k != "kind") && forall k :: k in args ==> args[k] == wanted[k]
  }

  /** One utterance was added. */
  ghost predicate OneSaid(c: Core, c': Core, e: Event) {
    && Utterances(c'.Events()) == Utterances(c.Events()) + [e] && Deliveries(c'.Events()) == Deliveries(c.Events())
    && Noted(c'.Events()) == Noted(c.Events()) && c'.ledger.handed == c.ledger.handed && SamePlace(c.world, c'.world)
  }

  lemma EmitSaid(c: Core, d: Draft) returns (e: Event)
    requires Spoken()(Stamp(0, 0, 0, d))
    ensures e == Stamp(c.journal.attempt, c.journal.sequence, c.journal.index, d) && OneSaid(c, Emit(c, d), e)
  {
    e := Stamp(c.journal.attempt, c.journal.sequence, c.journal.index, d);
    UtteranceSnoc(c.Events(), e);
    hide Utterances, Deliveries, Noted;
    assert Deliveries(c.Events()) + [] == Deliveries(c.Events()) && Noted(c.Events()) + [] == Noted(c.Events());
  }

  lemma SaidAmid(a: Core, b: Core, c: Core, d: Core, e: Event)
    requires Background(a, b) && OneSaid(b, c, e) && Background(c, d)
    ensures OneSaid(a, d, e)
  {
    hide Utterances, Deliveries, Noted;
    BackgroundIsSilent(a, b);
    BackgroundIsSilent(c, d);
  }

  lemma SameIsBackground(c: Core, c': Core)
    requires c'.Events() == c.Events() && c'.ledger.handed == c.ledger.handed && SamePlace(c.world, c'.world)
    ensures Background(c, c')
  {
  }

  lemma MessageUtters(s: Setup, c: Core, agent: Agent, em: Emission, invocation: nat) returns (e: Event)
    requires em.kind.EmitMessage?
    ensures OneSaid(c, HandleMessage(s, c, agent, em, invocation), e) && Utters(e, agent, em, invocation)
  {
    hide Route, EnqueueAll, Emit, OneSaid, Background;
    var p := Proposal(agent, em.content, em.recipients, c.world.time);
    RouteInBackground(s, c, p);
    var (c1, to) := Route(s, c, p);
    var visibility := if em.isPrivate then Private else to.visibility;
    var authorized := if visibility.Public? then [] else [agent] + to.recipients;
    var d := Draft(AgentMessage, agent, c.world.time, to.recipients, None, visibility, authorized, Said(em.content, invocation), em.delta);
    e := EmitSaid(c1, d);
    var c2 := Emit(c1, d);
    var ds := Map(to.recipients, Addressed(agent, em, to, visibility));
    EnqueueAllInBackground(s, c2, ds, to.orderHint);
    SameIsBackground(c2, c2);
    SaidAmid(c, c1, c2, c2, e);
    SaidAmid(c, c1, c2, EnqueueAll(s, c2, ds, to.orderHint), e);
  }

  lemma ActionDoes(agent: Agent, em: Emission)
    ensures var a := ActionOf(agent, em); a.actor == agent && Does(a.kind, a.args, em.action)
  {
  }

  lemma ActionUtters(s: Setup, c: Core, action: Action, delta: ResourceDelta) returns (e: Event)
    ensures OneSaid(c, TakeAction(s, c, action, delta), e)
    ensures e.kind.ActionTaken? && e.actor == action.actor && e.body == Acted(action.kind, action.args) && e.delta == delta
  {
    hide ApplyChange, Emit, OneSaid, Background;
    var d := PublicDraft(ActionTaken, action.actor, c.world.time, Acted(action.kind, action.args)).(delta := delta);
    e := EmitSaid(c, d);
    var c1 := Emit(c, d);
    SameIsBackground(c, c);
    match s.handle(action, ViewOf(s, c1.world)) {
      case None =>
        RefusedInBackground(c1, action.kind);
        SaidAmid(c, c, c1, PolicyEvent(c1, "unknown_action", action.kind, 0), e);
      case Some(change) =>
        ApplyChangeInBackground(s, c1, action, change);
        SaidAmid(c, c, c1, ApplyChange(s, c1, action, change), e);
    }
  }

  lemma RefusedInBackground(c: Core, kind: string)
    ensures Background(c, PolicyEvent(c, "unknown_action", kind, 0))
  {
  }

  lemma EmissionUtters(s: Setup, c: Core, agent: Agent, em: Emission, invocation: nat) returns (e: Event)
    ensures OneSaid(c, HandleEmission(s, c, agent, em, invocation), e) && Utters(e, agent, em, invocation)
  {
    hide HandleMessage, TakeAction, Emit, OneSaid, Background;
    match em.kind {
      case EmitMessage => e := MessageUtters(s, c, agent, em, invocation);
      case EmitAction =>
        ActionDoes(agent, em);
        e := ActionUtters(s, c, ActionOf(agent, em), em.delta);
      case EmitToolCall =>
        var c1 := c.(world := c.world.(counters := c.world.counters.(toolCalls := c.world.counters.toolCalls + 1)));
        var d := Draft(ToolCalled, agent, c.world.time, [], None, Private, [agent], ToolUse(em.tool, em.toolArgs), em.delta);
        e := EmitSaid(c1, d);
        SameIsBackground(c, c1);
        SameIsBackground(Emit(c1, d), Emit(c1, d));
        SaidAmid(c, c1, Emit(c1, d), Emit(c1, d), e);
      case EmitFinal =>
        e := EmitSaid(c, PublicDraft(AgentFinal, agent, c.world.time, Said(em.content, invocation)).(delta := em.delta));
      case EmitError =>
        e := EmitSaid(c, PublicDraft(AgentError, agent, c.world.time, Failed(em.content)));
    }
  }

  lemma ChargeInBackground(c: Core, em: Emission)
    ensures Background(c, Charge(c, em))
  {
    hide ResourceDelta.Plus;
  }

  // ---- the pace of checkpoints ----

  /** The steps a log shows: deliveries made, and things agents said or did. */
  function Steps(c: Core): nat {
    |Deliveries(c.Events())| + |Utterances(c.Events())|
  }

  /** From one session to a later one a checkpoint was written every so many steps, counted from the last. */
  ghost predicate Paced(s: Setup, x: Session, y: Session) {
    0 <= x.sinceCheckpoint < Every(s) ==>
      && 0 <= y.sinceCheckpoint < Every(s)
      && x.sinceCheckpoint + (Steps(y.core) - Steps(x.core)) == Every(s) * (Written(y) - Written(x)) + y.sinceCheckpoint
  }

  lemma PacedOn(s: Setup, x: Session, y: Session, z: Session)
    requires Paced(s, x, y) && Paced(s, y, z)
    ensures Paced(s, x, z)
  {
    hide Steps, Written;
    var a, b := Written(y) - Written(x), Written(z) - Written(y);
    assert Every(s) * (a + b) == Every(s) * a + Every(s) * b;
  }

  lemma NoStep(s: Setup, x: Session, y: Session)
    requires y.sinceCheckpoint == x.sinceCheckpoint
    requires Deliveries(y.core.Events()) == Deliveries(x.core.Events()) && Utterances(y.core.Events()) == Utterances(x.core.Events())
    requires Noted(y.core.Events()) == Noted(x.core.Events())
    ensures Paced(s, x, y)
  {
  }

  /** After a step a checkpoint may be written, and nothing else happens. */
  lemma CheckpointPaced(s: Setup, m: Minds, x: Session, y: Session)
    requires y.sinceCheckpoint == x.sinceCheckpoint && Steps(y.core) == Steps(x.core) + 1 && Noted(y.core.Events()) == Noted(x.core.Events())
    ensures var z := MaybeCheckpoint(s, m, y);
      && Paced(s, x, z) && z.core.ledger == y.core.ledger && z.core.world == y.core.world
      && z.driver == y.driver && z.memos == y.memos && y.core.Events() <= z.core.Events()
      && Utterances(z.core.Events()) == Utterances(y.core.Events()) && Deliveries(z.core.Events()) == Deliveries(y.core.Events())
  {
    CheckpointIsSilent(s, m, y);
    if 0 <= x.sinceCheckpoint < Every(s) {
      OneStep(s, m, y);
      hide MaybeCheckpoint, Deliveries, Utterances;
    }
  }

  lemma CheckpointIsSilent(s: Setup, m: Minds, x: Session)
    ensures var y := MaybeCheckpoint(s, m, x);
      && y.core.ledger == x.core.ledger && y.core.world == x.core.world && y.driver == x.driver && y.memos == x.memos
      && x.core.Events() <= y.core.Events()
      && Utterances(y.core.Events()) == Utterances(x.core.Events()) && Deliveries(y.core.Events()) == Deliveries(x.core.Events())
  {
    var c := x.core;
    var d := PublicDraft(SnapshotCreated, WORLD_ACTOR, c.world.time, Body.Snapshot(c.journal.sequence));
    UtteranceSnoc(c.Events(), Stamp(c.journal.attempt, c.journal.sequence, c.journal.index, d));
    hide Utterances, Deliveries, Noted, Snapshots, SnapshotOf;
    assert Utterances(c.Events()) + [] == Utterances(c.Events());
    assert Deliveries(c.Events()) + [] == Deliveries(c.Events());
  }

  // ---- streams ----

  lemma TakenEmissionUtters(s: Setup, m: Minds, x: Session, agent: Agent, em: Emission, invocation: nat) returns (e: Event)
    ensures var y := TakeEmission(s, m, x, agent, em, invocation);
      && Utterances(y.core.Events()) == Utterances(x.core.Events()) + [e] && Utters(e, agent, em, invocation)
      && Deliveries(y.core.Events()) == Deliveries(x.core.Events()) && y.core.ledger.handed == x.core.ledger.handed
      && SamePlace(x.core.world, y.core.world) && y.driver == x.driver && y.memos == x.memos && Paced(s, x, y)
  {
    hide Charge, HandleEmission, MaybeCheckpoint, Background, Utters, Utterances, Deliveries, Noted, Paced;
    ChargeInBackground(x.core, em);
    var c := Charge(x.core, em);
    e := EmissionUtters(s, c, agent, em, invocation);
    var y := x.(core := HandleEmission(s, c, agent, em, invocation));
    BackgroundIsSilent(x.core, c);
    BackgroundFacts(x.core, c);
    CheckpointPaced(s, m, x, y);
  }

  /** A stream: as many of its emissions, from the first on, as it takes to finish the episode, or all
      of them; each leaves one utterance, in their order, and nothing else is said or delivered. */
  lemma {:induction false} StreamUtters(s: Setup, m: Minds, x: Session, agent: Agent, emissions: seq<Emission>, invocation: nat)
      returns (said: seq<Event>)
    ensures var y := RunStream(s, m, x, agent, emissions, invocation);
      && |said| <= |emissions| && (|said| == |emissions| || (y.core.world.finished && |said| > 0))
      && Utterances(y.core.Events()) == Utterances(x.core.Events()) + said
      && (forall i :: 0 <= i < |said| ==> Utters(said[i], agent, emissions[i], invocation))
      && Deliveries(y.core.Events()) == Deliveries(x.core.Events()) && y.core.ledger.handed == x.core.ledger.handed
      && SamePlace(x.core.world, y.core.world) && y.driver == x.driver && y.memos == x.memos && Paced(s, x, y)
    decreases |emissions|
  {
    hide TakeEmission, Utterances, Deliveries, Utters, Paced;
    if |emissions| == 0 {
      said := [];
      NoStep(s, x, x);
      assert Utterances(x.core.Events()) + [] == Utterances(x.core.Events());
    } else {
      var e := TakenEmissionUtters(s, m, x, agent, emissions[0], invocation);
      var y := TakeEmission(s, m, x, agent, emissions[0], invocation);
      said := [e];
      if !y.core.world.finished {
        var more := StreamUtters(s, m, y, agent, emissions[1..], invocation);
        assert Utterances(x.core.Events()) + [e] + more == Utterances(x.core.Events()) + ([e] + more);
        said := [e] + more;
        PacedOn(s, x, y, RunStream(s, m, y, agent, emissions[1..], invocation));
      }
    }
  }

  // ---- deliveries ----

  lemma AskedInBackground(s: Setup, x: Session, d: Draft, y: Session)
    requires d.kind.AgentInvoked? && y.core == Emit(x.core, d) && y.sinceCheckpoint == x.sinceCheckpoint
    ensures Deliveries(y.core.Events()) == Deliveries(x.core.Events()) && Utterances(y.core.Events()) == Utterances(x.core.Events())
    ensures Paced(s, x, y)
  {
    var log := x.core.Events();
    UtteranceSnoc(log, Stamp(x.core.journal.attempt, x.core.journal.sequence, x.core.journal.index, d));
    hide Deliveries, Utterances, Noted, Paced;
    assert Deliveries(log) + [] == Deliveries(log) && Utterances(log) + [] == Utterances(log) && Noted(log) + [] == Noted(log);
    NoStep(s, x, y);
  }

  /** An agent is asked: under the next number, with what it remembers and the request for what was
      delivered. It remembers what it answers with, the others what they did; and what it says is heard in order. */
  lemma AgentIsHeard(s: Setup, m: Minds, x: Session, agent: Agent, d: Delivery, cause: EventId) returns (said: seq<Event>)
    ensures var y, n := Invoke(s, m, x, agent, d, cause), x.driver.invocations + 1;
      var reply := m.invoke(agent, MemoOf(x, agent), RequestFor(s, x, agent, d, n));
      && |said| <= |reply.emissions| && (|said| == |reply.emissions| || (y.core.world.finished && |said| > 0))
      && Utterances(y.core.Events()) == Utterances(x.core.Events()) + said
      && (forall i :: 0 <= i < |said| ==> Utters(said[i], agent, reply.emissions[i], n))
      && y.memos.Keys == x.memos.Keys + {agent} && y.memos[agent] == reply.memo
      && (forall a :: a in x.memos && a != agent ==> y.memos[a] == x.memos[a])
      && y.driver.invocations == n && y.driver.turn == x.driver.turn && y.driver.activated == x.driver.activated
      && Paced(s, x, y)
    ensures var y := Invoke(s, m, x, agent, d, cause);
      && y.core.ledger.handed == x.core.ledger.handed && SamePlace(x.core.world, y.core.world)
      && Deliveries(y.core.Events()) == Deliveries(x.core.Events())
  {
    hide RunStream, RequestFor, Deliveries, Utterances, MemoOf, Emit, Utters, Paced;
    var invocation := x.driver.invocations + 1;
    var draft := Draft(AgentInvoked, agent, x.core.world.time, [], Some(cause), Private, [agent], Invoked(invocation, d.content), NoResources);
    var reply := m.invoke(agent, MemoOf(x, agent), RequestFor(s, x, agent, d, invocation));
    var y := x.(core := Emit(x.core, draft), driver := x.driver.(invocations := invocation), memos := x.memos[agent := reply.memo]);
    AskedInBackground(s, x, draft, y);
    EmitInPlace(x.core, draft);
    said := StreamUtters(s, m, y, agent, reply.emissions, invocation);
    PacedOn(s, x, y, RunStream(s, m, y, agent, reply.emissions, invocation));
  }

  lemma EmitInPlace(c: Core, d: Draft)
    ensures Emit(c, d).ledger == c.ledger && Emit(c, d).world == c.world
  {
  }

  /** A delivered event for an item, at a time. */
  ghost predicate MadeAt(e: Event, item: Item, time: int) {
    && e.kind.MessageDelivered? && e.time == time && e.targets == [item.delivery.recipient]
    && e.body == Delivered(item.delivery.sender, item.delivery.recipient, item.delivery.content, item.delivery.payload)
  }

  /** The session after an item of a batch: it was handed over, now. */
  lemma DeliverHands(s: Setup, m: Minds, x: Session, item: Item) returns (e: Event)
    requires item.delivery.recipient !in x.core.world.dropped
    ensures var y := DeliverAndInvoke(s, m, x, item);
      && SamePlace(x.core.world, y.core.world) && y.core.ledger.handed == x.core.ledger.handed + [item]
      && Deliveries(y.core.Events()) == Deliveries(x.core.Events()) + [e] && MadeAt(e, item, x.core.world.time)
      && Paced(s, x, y)
  {
    var draft := DeliveredDraft(item, x.core.world.time);
    e := Stamp(x.core.journal.attempt, x.core.journal.sequence, x.core.journal.index, draft);
    UtteranceSnoc(x.core.Events(), e);
    hide Invoke, MaybeCheckpoint, Deliveries, Utterances, Noted, Paced;
    var y := x.(core := Hand(x.core, item));
    assert Utterances(x.core.Events()) + [] == Utterances(x.core.Events()) && Noted(x.core.Events()) + [] == Noted(x.core.Events());
    CheckpointPaced(s, m, x, y);
    var z, to := MaybeCheckpoint(s, m, y), item.delivery.recipient;
    if to in m.initial {
      var cause := EventId(x.core.journal.sequence);
      var said := AgentIsHeard(s, m, z, to, item.delivery, cause);
      PacedOn(s, x, z, Invoke(s, m, z, to, item.delivery, cause));
    }
  }

  lemma BackgroundFacts(c: Core, c': Core)
    requires Background(c, c')
    ensures c'.ledger.handed == c.ledger.handed && SamePlace(c.world, c'.world)
  {
  }

  /** A batch is handed over in its order: all of it, or up to the item whose recipient finished the
      episode. Each delivery is made at the time of the round. */
  lemma {:induction false} BatchHands(s: Setup, m: Minds, x: Session, items: seq<Item>) returns (made: seq<Event>)
    requires x.core.world.dropped == {}
    ensures var y := RunBatch(s, m, x, items);
      && |made| <= |items| && (|made| == |items| || (y.core.world.finished && |made| > 0))
      && y.core.ledger.handed == x.core.ledger.handed + items[..|made|] && SamePlace(x.core.world, y.core.world)
      && Deliveries(y.core.Events()) == Deliveries(x.core.Events()) + made
      && (forall k :: 0 <= k < |made| ==> MadeAt(made[k], items[k], x.core.world.time))
      && Paced(s, x, y)
    decreases |items|
  {
    hide DeliverAndInvoke, Deliveries, MadeAt, Paced;
    if |items| == 0 {
      made := [];
      NoStep(s, x, x);
      assert x.core.ledger.handed + items[..0] == x.core.ledger.handed;
      assert Deliveries(x.core.Events()) + [] == Deliveries(x.core.Events());
    } else {
      var e := DeliverHands(s, m, x, items[0]);
      var y := DeliverAndInvoke(s, m, x, items[0]);
      made := [e];
      assert items[..1] == [items[0]];
      if !y.core.world.finished {
        var more := BatchHands(s, m, y, items[1..]);
        made := [e] + more;
        PacedOn(s, x, y, RunBatch(s, m, y, items[1..]));
        assert items[..|made|] == [items[0]] + items[1..][..|more|];
        assert x.core.ledger.handed + [items[0]] + items[1..][..|more|] == x.core.ledger.handed + items[..|made|];
        assert Deliveries(x.core.Events()) + [e] + more == Deliveries(x.core.Events()) + made;
      }
    }
  }

  // ---- no delivery is late ----

  /** The longest a round can take. */
  function Step(s: Setup): int {
    if s.clockStep >= 1 then s.clockStep else 1
  }

  /** Nothing in the queue should have been delivered a whole step ago. */
  ghost predicate NothingOverdue(s: Setup, w: WorldState) {
    forall i :: i in w.queue ==> w.time < i.due + Step(s)
  }

  /** Every delivery so far was made less than a step after it was due, and none before. */
  ghost predicate OnTime(s: Setup, c: Core) {
    && |Deliveries(c.Events())| == |c.ledger.handed|
    && forall k :: 0 <= k < |c.ledger.handed| ==>
         c.ledger.handed[k].due <= Deliveries(c.Events())[k].time < c.ledger.handed[k].due + Step(s)
  }

  lemma BatchOnTime(s: Setup, m: Minds, x: Session, items: seq<Item>)
    requires x.core.world.dropped == {} && OnTime(s, x.core)
    requires forall i :: i in items ==> i.due <= x.core.world.time < i.due + Step(s)
    ensures OnTime(s, RunBatch(s, m, x, items).core) && RunBatch(s, m, x, items).core.world.dropped == {}
    ensures RunBatch(s, m, x, items).core.world.time == x.core.world.time
  {
    hide RunBatch, Deliveries;
    var made := BatchHands(s, m, x, items);
    var y := RunBatch(s, m, x, items);
    forall k | 0 <= k < |y.core.ledger.handed|
      ensures y.core.ledger.handed[k].due <= Deliveries(y.core.Events())[k].time < y.core.ledger.handed[k].due + Step(s)
    {
      var n := |x.core.ledger.handed|;
      if k < n {
        assert y.core.ledger.handed[k] == x.core.ledger.handed[k];
        assert Deliveries(y.core.Events())[k] == Deliveries(x.core.Events())[k];
      } else {
        assert y.core.ledger.handed[k] == items[k - n] && items[k - n] in items;
        assert Deliveries(y.core.Events())[k] == made[k - n];
      }
    }
  }

  lemma ClockOnTime(s: Setup, c: Core, time: int)
    requires OnTime(s, c)
    ensures OnTime(s, AdvanceTo(c, time)) && AdvanceTo(c, time).world.dropped == c.world.dropped
  {
    if time > c.world.time {
      var d := PublicDraft(ClockAdvanced, WORLD_ACTOR, time, Clock(time));
      UtteranceSnoc(c.Events(), Stamp(c.journal.attempt, c.journal.sequence, c.journal.index, d));
      hide Deliveries, Utterances;
      assert Deliveries(c.Events()) + [] == Deliveries(c.Events());
    }
  }

  /** Running a session, with a positive latency and no negative delay, from where nothing is overdue:
      no delivery is ever made before it is due, or a whole clock step after. */
  lemma {:induction false} NothingArrivesLate(s: Setup, m: Minds, x: Session)
    requires Unhurried(s) && OnTime(s, x.core) && NothingOverdue(s, x.core.world) && x.core.world.dropped == {}
    ensures OnTime(s, SessionLoop(s, m, x).0.core)
    decreases if x.core.journal.sequence < s.limits.maxEvents then s.limits.maxEvents - x.core.journal.sequence else 0,
              |x.core.world.queue|
  {
    hide Unhurried, OnTime, RunBatch, LimitHit, NextDue, AdvanceTo, Popped, Remaining;
    if !x.core.world.finished && LimitHit(s, x.core).None? {
      LimitLeavesRoom(s, x.core);
      PopShrinks(s, x.core);
      PopDueConserves(s.digest, x.core.world.queue, x.core.world.time);
      PopLeavesPending(s, x.core);
      var (core, due) := PopDue(s, x.core);
      var popped := x.(core := core);
      assert OnTime(s, core) by { PopOnTime(s, x.core, core); }
      if |due| > 0 {
        BatchOnTime(s, m, popped, due);
        var y := RunBatch(s, m, popped, due);
        BatchLeavesPending(s, m, popped, due);
        RoundIsShort(s, y);
        ClockOnTime(s, y.core, y.core.world.time + s.clockStep);
        EndRoundProgress(s, popped, y);
        NothingArrivesLate(s, m, EndRound(s, y));
      } else {
        NextDueIsLater(core.world.queue, core.world.time);
        if NextDue(core.world.queue).Some? && NextDue(core.world.queue).value <= s.limits.maxLogicalTime {
          var next := NextDue(core.world.queue).value;
          NextDueIsLeast(core.world.queue, next);
          AdvanceProgress(core, next);
          ClockOnTime(s, core, next);
          SkipIsShort(s, core, next);
          NothingArrivesLate(s, m, popped.(core := AdvanceTo(core, next)));
        }
      }
    }
  }

  lemma PopOnTime(s: Setup, c: Core, c': Core)
    requires OnTime(s, c) && c'.journal == c.journal && c'.ledger.handed == c.ledger.handed
    ensures OnTime(s, c')
  {
    hide Deliveries;
  }

  lemma RoundIsShort(s: Setup, y: Session)
    requires Pending(y.core.world)
    ensures NothingOverdue(s, EndRound(s, y).core.world)
  {
  }

  lemma SkipIsShort(s: Setup, c: Core, next: int)
    requires forall i :: i in c.world.queue ==> i.due >= next
    requires next > c.world.time
    ensures NothingOverdue(s, AdvanceTo(c, next).world)
  {
  }
}
