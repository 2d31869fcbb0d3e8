/** Two sessions that have done the same work, one with more bookkeeping in its log than the
    other, go on to do the same work: every operation of World and of the session driver keeps
    them in step. */
module Equivalence {
  import opened Wrappers
  import Views
  import opened Contracts
  import opened KernelState
  import opened Sorting
  import opened Scheduler
  import opened Store
  import opened Journals
  import opened WorldRules
  import opened DriverRules
  import opened DriverInvariants

  // ---- the work in a log ----

  /** What an attempt adds for its own administration. Everything else is work. */
  predicate Bookkeeping(kind: EventKind) {
    kind.AttemptStarted? || kind.RunStarted? || kind.AgentRegistered? || kind.SnapshotCreated? || kind.ClockAdvanced?
  }

  /** An event without what names its place in the log: attempt, sequence, id, key, causation. */
  datatype Deed = Deed(
    kind: EventKind, actor: Agent, time: int, targets: seq<Agent>, visibility: Visibility, authorized: seq<string>,
    body: Body, delta: ResourceDelta)

  function DeedOf(e: Event): Deed {
    Deed(e.kind, e.actor, e.time, e.targets, e.visibility, e.authorized, e.body, e.delta)
  }

  function Deeds(events: seq<Event>): seq<Deed> {
    if |events| == 0 then []
    else
      var e := events[|events| - 1];
      Deeds(events[..|events| - 1]) + (if Bookkeeping(e.kind) then [] else [DeedOf(e)])
  }

  lemma DeedsSnoc(events: seq<Event>, e: Event)
    ensures Deeds(events + [e]) == Deeds(events) + (if Bookkeeping(e.kind) then [] else [DeedOf(e)])
  {
    assert (events + [e])[..|events|] == events;
  }

  // ---- two cores that have done the same work ----

  /** Equal worlds, up to the physical order of equally scheduled deliveries. */
  ghost predicate SameWorld(s: Setup, w: WorldState, w': WorldState) {
    w' == w.(queue := w'.queue) && Canon(s.digest, w'.queue) == Canon(s.digest, w.queue)
  }

  /** The second log is `k` events longer, and those are bookkeeping. */
  ghost predicate Like(s: Setup, c: Core, c': Core, k: int) {
    && c'.journal.sequence == c.journal.sequence + k
    && Deeds(c'.Events()) == Deeds(c.Events())
    && c'.rng == c.rng
    && SameWorld(s, c.world, c'.world)
  }

  lemma EmitLike(s: Setup, c: Core, c': Core, k: int, d: Draft, d': Draft)
    requires Like(s, c, c', k)
    requires (Bookkeeping(d.kind) && Bookkeeping(d'.kind)) || d' == d.(causation := d'.causation)
    ensures Like(s, Emit(c, d), Emit(c', d'), k)
  {
    hide Canon, Deeds;
    DeedsSnoc(c.Events(), Stamp(c.journal.attempt, c.journal.sequence, c.journal.index, d));
    DeedsSnoc(c'.Events(), Stamp(c'.journal.attempt, c'.journal.sequence, c'.journal.index, d'));
  }

  lemma EmitExtra(s: Setup, c: Core, c': Core, k: int, d: Draft)
    requires Like(s, c, c', k) && Bookkeeping(d.kind)
    ensures Like(s, c, Emit(c', d), k + 1)
  {
    hide Canon, Deeds;
    DeedsSnoc(c'.Events(), Stamp(c'.journal.attempt, c'.journal.sequence, c'.journal.index, d));
  }

  lemma AdvanceLike(s: Setup, c: Core, c': Core, k: int, time: int)
    requires Like(s, c, c', k)
    ensures Like(s, AdvanceTo(c, time), AdvanceTo(c', time), k)
  {
    hide Emit, Deeds, Canon;
    if time > c.world.time {
      var d := PublicDraft(ClockAdvanced, WORLD_ACTOR, time, Clock(time));
      EmitLike(s, c.(world := c.world.(time := time)), c'.(world := c'.world.(time := time)), k, d, d);
    }
  }

  lemma PolicyLike(s: Setup, c: Core, c': Core, k: int, rule: string, subject: string, amount: int)
    requires Like(s, c, c', k)
    ensures Like(s, PolicyEvent(c, rule, subject, amount), PolicyEvent(c', rule, subject, amount), k)
  {
    hide Emit, Deeds, Canon;
    var d := PublicDraft(PolicyDecided, WORLD_ACTOR, c.world.time, Policy(rule, false, subject, amount));
    EmitLike(s, c, c', k, d, d);
  }

  lemma PostLike(s: Setup, c: Core, c': Core, k: int, item: Item)
    requires Like(s, c, c', k)
    ensures Like(s, Post(c, item), Post(c', item), k)
  {
    hide Deeds, Canon;
    PushKeepsSchedule(s.digest, c.world.queue, c'.world.queue, item);
  }

  lemma PopLike(s: Setup, c: Core, c': Core, k: int)
    requires Like(s, c, c', k)
    ensures PopDue(s, c).1 == PopDue(s, c').1 && Like(s, PopDue(s, c).0, PopDue(s, c').0, k)
  {
    hide Deeds, Canon;
    PopKeepsSchedule(s.digest, c.world.queue, c'.world.queue, c.world.time);
  }

  // ---- faults and scheduling ----

  lemma FaultFiresLike(s: Setup, c: Core, c': Core, k: int, index: nat)
    requires Like(s, c, c', k) && index < |s.faults|
    ensures FaultFires(s, c, index).1 == FaultFires(s, c', index).1
    ensures Like(s, FaultFires(s, c, index).0, FaultFires(s, c', index).0, k)
  {
    hide Deeds, Canon;
  }

  lemma DuplicateLike(s: Setup, c: Core, c': Core, k: int, item: Item)
    requires Like(s, c, c', k)
    ensures var p, p' := Post(c, item), Post(c', item);
      Like(s, p.(world := p.world.(counters := p.world.counters.(duplicates := p.world.counters.duplicates + 1))),
           p'.(world := p'.world.(counters := p'.world.counters.(duplicates := p'.world.counters.duplicates + 1))), k)
  {
    hide Deeds, Canon, Post;
    PostLike(s, c, c', k, item);
  }

  lemma ApplyFaultLike(s: Setup, c: Core, c': Core, k: int, index: nat, item: Item)
    requires Like(s, c, c', k) && index < |s.faults|
    ensures ApplyFault(s, c, index, item).1 == ApplyFault(s, c', index, item).1
    ensures Like(s, ApplyFault(s, c, index, item).0, ApplyFault(s, c', index, item).0, k)
  {
    hide SameWorld, Emit, FaultFires, Deeds, Post;
    FaultFiresLike(s, c, c', k, index);
    var c1, c1' := FaultFires(s, c, index).0, FaultFires(s, c', index).0;
    LikeTime(s, c1, c1', k);
    var fault := s.faults[index];
    var d := FaultDraft(fault.kind, c1.world.time, item.delivery);
    var c2 := c1.(ledger := c1.ledger.(fired := Bump(c1.ledger.fired, index)));
    var c2' := c1'.(ledger := c1'.ledger.(fired := Bump(c1'.ledger.fired, index)));
    EmitLike(s, c2, c2', k, d, d);
    DuplicateLike(s, Emit(c2, d), Emit(c2', d), k, item.(duplicate := 1));
  }

  lemma LikeTime(s: Setup, c: Core, c': Core, k: int)
    requires Like(s, c, c', k)
    ensures c'.world == c.world.(queue := c'.world.queue)
  {
  }

  lemma {:induction false} ApplyFaultsLike(s: Setup, c: Core, c': Core, k: int, item: Item, count: nat)
    requires Like(s, c, c', k) && count <= |s.faults|
    ensures ApplyFaults(s, c, item, count).1 == ApplyFaults(s, c', item, count).1
    ensures Like(s, ApplyFaults(s, c, item, count).0, ApplyFaults(s, c', item, count).0, k)
  {
    hide Like, ApplyFault;
    if count > 0 {
      ApplyFaultsLike(s, c, c', k, item, count - 1);
      var (c1, o) := ApplyFaults(s, c, item, count - 1);
      if o.Some? {
        ApplyFaultLike(s, c1, ApplyFaults(s, c', item, count - 1).0, k, count - 1, o.value);
      }
    }
  }

  lemma AcceptLike(s: Setup, c: Core, c': Core, k: int, item: Item, size: nat)
    requires Like(s, c, c', k)
    ensures Like(s, Accept(c, item, size), Accept(c', item, size), k)
  {
    hide Deeds, Canon, Post;
    PostLike(s, c, c', k, item);
  }

  lemma EnqueueLike(s: Setup, c: Core, c': Core, k: int, d: Delivery, orderHint: int)
    requires Like(s, c, c', k)
    ensures Like(s, Enqueue(s, c, d, orderHint), Enqueue(s, c', d, orderHint), k)
  {
    LikeTime(s, c, c', k);
    hide Like, ApplyFaults, PolicyEvent, Accept;
    PolicyLike(s, c, c', k, "unknown_recipient", d.recipient, 0);
    PolicyLike(s, c, c', k, "recipient_dropped_out", d.recipient, 0);
    PolicyLike(s, c, c', k, "max_message_bytes", "bytes", Utf8Size(d.content));
    var item := Scheduled(s, c.world, d, orderHint);
    ApplyFaultsLike(s, c, c', k, item, |s.faults|);
    var (c1, o) := ApplyFaults(s, c, item, |s.faults|);
    if o.Some? {
      AcceptLike(s, c1, ApplyFaults(s, c', item, |s.faults|).0, k, o.value, Utf8Size(d.content));
    }
  }

  lemma {:induction false} EnqueueAllLike(s: Setup, c: Core, c': Core, k: int, ds: seq<Delivery>, orderHint: int)
    requires Like(s, c, c', k)
    ensures Like(s, EnqueueAll(s, c, ds, orderHint), EnqueueAll(s, c', ds, orderHint), k)
  {
    hide Like, Enqueue;
    if |ds| > 0 {
      var n := |ds| - 1;
      EnqueueAllLike(s, c, c', k, ds[..n], orderHint);
      EnqueueLike(s, EnqueueAll(s, c, ds[..n], orderHint), EnqueueAll(s, c', ds[..n], orderHint), k, ds[n], orderHint);
    }
  }

  // ---- routing and actions ----

  lemma RouteLike(s: Setup, c: Core, c': Core, k: int, p: Proposal)
    requires Like(s, c, c', k)
    ensures Route(s, c, p).1 == Route(s, c', p).1 && Like(s, Route(s, c, p).0, Route(s, c', p).0, k)
  {
    LikeTime(s, c, c', k);
    hide Like, PolicyEvent;
    PolicyLike(s, c, c', k, "broadcast_not_allowed", p.actor, 0);
  }

  lemma ChangeLike(s: Setup, c: Core, c': Core, k: int, state: Facts, known: map<Agent, Facts>)
    requires Like(s, c, c', k)
    ensures Like(s, c.(world := c.world.(state := state, privateFacts := known)),
                 c'.(world := c'.world.(state := state, privateFacts := known)), k)
  {
    hide Deeds, Canon;
  }

  lemma FinishLike(s: Setup, c: Core, c': Core, k: int, reason: string)
    requires Like(s, c, c', k)
    ensures Like(s, c.(world := c.world.(finished := true, finishReason := reason)),
                 c'.(world := c'.world.(finished := true, finishReason := reason)), k)
  {
    hide Deeds, Canon;
  }

  lemma ApplyChangeLike(s: Setup, c: Core, c': Core, k: int, action: Action, change: Change)
    requires Like(s, c, c', k)
    ensures Like(s, ApplyChange(s, c, action, change), ApplyChange(s, c', action, change), k)
  {
    LikeTime(s, c, c', k);
    hide Like, PolicyEvent, EnqueueAll, Emit;
    PolicyLike(s, c, c', k, "action_rejected", change.rejected, 0);
    var state, known := c.world.state + change.updates, GrantFacts(c.world.privateFacts, change.factsTo);
    ChangeLike(s, c, c', k, state, known);
    var c1 := c.(world := c.world.(state := state, privateFacts := known));
    var c1' := c'.(world := c'.world.(state := state, privateFacts := known));
    EnqueueAllLike(s, c1, c1', k, change.messages, 0);
    var c2, c2' := EnqueueAll(s, c1, change.messages, 0), EnqueueAll(s, c1', change.messages, 0);
    LikeTime(s, c2, c2', k);
    var reason := if change.note != "" then change.note else "action:" + action.kind;
    FinishLike(s, c2, c2', k, reason);
    var d := ChangedDraft(action, change, c2.world.time);
    if change.finished {
      EmitLike(s, c2.(world := c2.world.(finished := true, finishReason := reason)),
               c2'.(world := c2'.world.(finished := true, finishReason := reason)), k, d, d);
    } else {
      EmitLike(s, c2, c2', k, d, d);
    }
  }

  // ---- two sessions that have done the same work ----

  /** The agents answer alike when they are shown the same work, whatever else their history shows. */
  ghost predicate SameMinds(m: Minds, m': Minds) {
    && m'.initial.Keys == m.initial.Keys
    && forall agent: Agent, memo: Memo, r: Request, h: seq<Event> :: Deeds(h) == Deeds(r.history) ==>
         m'.invoke(agent, memo, r.(history := h)) == m.invoke(agent, memo, r)
  }

  /** An agent's view of the work is a matter of the work alone. */
  lemma SameWorkSeen(events: seq<Event>, events': seq<Event>, view: string)
    requires Deeds(events) == Deeds(events')
    ensures Deeds(EventView(events, view)) == Deeds(EventView(events', view))
  {
    ShownDeeds(events, view);
    ShownDeeds(events', view);
  }

  /** The part of one deed that a view shows. */
  function ShownOf(d: Deed, view: string): seq<Deed> {
    if view == OMNISCIENT_VIEW || d.visibility.Public? then [d]
    else if d.visibility.OmniscientOnly? || view == PUBLIC_VIEW || view !in d.authorized then []
    else [d.(authorized := [view])]
  }

  function Shown(work: seq<Deed>, view: string): seq<Deed> {
    if |work| == 0 then [] else Shown(work[..|work| - 1], view) + ShownOf(work[|work| - 1], view)
  }

  lemma ShownSnoc(work: seq<Deed>, d: Deed, view: string)
    ensures Shown(work + [d], view) == Shown(work, view) + ShownOf(d, view)
  {
    assert (work + [d])[..|work|] == work;
  }

  lemma ProjectedDeed(e: Event, view: string)
    ensures match e.Project(view)
      case None => ShownOf(DeedOf(e), view) == []
      case Some(p) => p.kind == e.kind && ShownOf(DeedOf(e), view) == [DeedOf(p)]
  {
  }

  /** One more event, and what the view receives of it. */
  lemma ShownStep(front: seq<Event>, e: Event, view: string, seen: seq<Event>)
    requires Deeds(seen) == Shown(Deeds(front), view)
    ensures match e.Project(view)
      case None => Deeds(seen) == Shown(Deeds(front + [e]), view)
      case Some(p) => Deeds(seen + [p]) == Shown(Deeds(front + [e]), view)
  {
    ProjectedDeed(e, view);
    DeedsSnoc(front, e);
    hide Deeds, Shown, ShownOf, Event.Project;
    ShownSnoc(Deeds(front), DeedOf(e), view);
    assert Deeds(front) + [] == Deeds(front) && Deeds(seen) + [] == Deeds(seen);
    match e.Project(view) {
      case None =>
      case Some(p) => DeedsSnoc(seen, p);
    }
  }

  lemma NothingShown(view: string)
    ensures Deeds(EventView([], view)) == [] && Shown(Deeds([]), view) == []
  {
  }

  lemma {:induction false} ShownDeeds(events: seq<Event>, view: string)
    ensures Deeds(EventView(events, view)) == Shown(Deeds(events), view)
  {
    hide Deeds, Shown, Event.Project, EventView;
    if events == [] {
      NothingShown(view);
    } else {
      var front, e := events[..|events| - 1], events[|events| - 1];
      ShownDeeds(front, view);
      var seen := EventView(front, view);
      ShownStep(front, e, view, seen);
      Views.ViewSnoc(front, e, view);
      assert events == front + [e];
      assert seen + [] == seen;
    }
  }

  ghost predicate InStep(s: Setup, x: Session, x': Session, k: int) {
    && Like(s, x.core, x'.core, k)
    && x'.driver.invocations == x.driver.invocations
    && x'.driver.activated == x.driver.activated
    && x'.sinceCheckpoint == x.sinceCheckpoint
    && x'.memos == x.memos
  }

  lemma MaybeCheckpointAlike(s: Setup, m: Minds, m': Minds, x: Session, x': Session, k: int)
    requires InStep(s, x, x', k)
    ensures InStep(s, MaybeCheckpoint(s, m, x), MaybeCheckpoint(s, m', x'), k)
  {
    hide Deeds, Canon, Emit;
    var c, c' := Capture(s, m, x.(sinceCheckpoint := 0)), Capture(s, m', x'.(sinceCheckpoint := 0));
    var saved := x.core.(journal := x.core.journal.(disk := WithCheckpoint(x.core.journal.disk, c)));
    var saved' := x'.core.(journal := x'.core.journal.(disk := WithCheckpoint(x'.core.journal.disk, c')));
    assert Like(s, saved, saved', k);
    EmitLike(s, saved, saved', k, PublicDraft(SnapshotCreated, WORLD_ACTOR, x.core.world.time, Body.Snapshot(c.sequence)),
             PublicDraft(SnapshotCreated, WORLD_ACTOR, x'.core.world.time, Body.Snapshot(c'.sequence)));
  }

  lemma HandleMessageLike(s: Setup, c: Core, c': Core, k: int, agent: Agent, em: Emission, invocation: nat)
    requires Like(s, c, c', k)
    ensures Like(s, HandleMessage(s, c, agent, em, invocation), HandleMessage(s, c', agent, em, invocation), k)
  {
    LikeTime(s, c, c', k);
    hide Like, Route, Emit, EnqueueAll;
    var p := Proposal(agent, em.content, em.recipients, c.world.time);
    RouteLike(s, c, c', k, p);
    var (c1, decision) := Route(s, c, p);
    var c1' := Route(s, c', p).0;
    var visibility := if em.isPrivate then Private else decision.visibility;
    var authorized := if visibility.Public? then [] else [agent] + decision.recipients;
    var d := Draft(AgentMessage, agent, c.world.time, decision.recipients, None, visibility, authorized,
                   Said(em.content, invocation), em.delta);
    EmitLike(s, c1, c1', k, d, d);
    EnqueueAllLike(s, Emit(c1, d), Emit(c1', d), k, Map(decision.recipients, Addressed(agent, em, decision, visibility)),
                   decision.orderHint);
  }

  lemma TakeActionLike(s: Setup, c: Core, c': Core, k: int, action: Action, delta: ResourceDelta)
    requires Like(s, c, c', k)
    ensures Like(s, TakeAction(s, c, action, delta), TakeAction(s, c', action, delta), k)
  {
    LikeTime(s, c, c', k);
    hide Like, Emit, ApplyChange, PolicyEvent;
    var d := PublicDraft(ActionTaken, action.actor, c.world.time, Acted(action.kind, action.args)).(delta := delta);
    EmitLike(s, c, c', k, d, d);
    var c1, c1' := Emit(c, d), Emit(c', d);
    LikeTime(s, c1, c1', k);
    match s.handle(action, ViewOf(s, c1.world)) {
      case None => PolicyLike(s, c1, c1', k, "unknown_action", action.kind, 0);
      case Some(change) => ApplyChangeLike(s, c1, c1', k, action, change);
    }
  }

  lemma ToolCountLike(s: Setup, c: Core, c': Core, k: int)
    requires Like(s, c, c', k)
    ensures Like(s, c.(world := c.world.(counters := c.world.counters.(toolCalls := c.world.counters.toolCalls + 1))),
                 c'.(world := c'.world.(counters := c'.world.counters.(toolCalls := c'.world.counters.toolCalls + 1))), k)
  {
    hide Deeds, Canon;
  }

  lemma HandleEmissionLike(s: Setup, c: Core, c': Core, k: int, agent: Agent, em: Emission, invocation: nat)
    requires Like(s, c, c', k)
    ensures Like(s, HandleEmission(s, c, agent, em, invocation), HandleEmission(s, c', agent, em, invocation), k)
  {
    LikeTime(s, c, c', k);
    hide Like, HandleMessage, TakeAction, Emit;
    match em.kind {
      case EmitMessage => HandleMessageLike(s, c, c', k, agent, em, invocation);
      case EmitAction => TakeActionLike(s, c, c', k, ActionOf(agent, em), em.delta);
      case EmitToolCall =>
        ToolCountLike(s, c, c', k);
        var d := Draft(ToolCalled, agent, c.world.time, [], None, Private, [agent], ToolUse(em.tool, em.toolArgs), em.delta);
        EmitLike(s, c.(world := c.world.(counters := c.world.counters.(toolCalls := c.world.counters.toolCalls + 1))),
                 c'.(world := c'.world.(counters := c'.world.counters.(toolCalls := c'.world.counters.toolCalls + 1))), k, d, d);
      case EmitFinal =>
        var d := PublicDraft(AgentFinal, agent, c.world.time, Said(em.content, invocation)).(delta := em.delta);
        EmitLike(s, c, c', k, d, d);
      case EmitError =>
        var d := PublicDraft(AgentError, agent, c.world.time, Failed(em.content));
        EmitLike(s, c, c', k, d, d);
    }
  }

  lemma ChargeLike(s: Setup, c: Core, c': Core, k: int, em: Emission)
    requires Like(s, c, c', k)
    ensures Like(s, Charge(c, em), Charge(c', em), k)
  {
    hide Deeds, Canon;
  }

  lemma TakeEmissionAlike(
      s: Setup, m: Minds, m': Minds, x: Session, x': Session, k: int, agent: Agent, em: Emission, invocation: nat)
    requires InStep(s, x, x', k)
    ensures InStep(s, TakeEmission(s, m, x, agent, em, invocation), TakeEmission(s, m', x', agent, em, invocation), k)
  {
    hide Like, Charge, HandleEmission, MaybeCheckpoint;
    ChargeLike(s, x.core, x'.core, k, em);
    HandleEmissionLike(s, Charge(x.core, em), Charge(x'.core, em), k, agent, em, invocation);
    MaybeCheckpointAlike(s, m, m', x.(core := HandleEmission(s, Charge(x.core, em), agent, em, invocation)),
                         x'.(core := HandleEmission(s, Charge(x'.core, em), agent, em, invocation)), k);
  }

  lemma AlikeWorld(s: Setup, x: Session, x': Session, k: int)
    requires InStep(s, x, x', k)
    ensures x'.core.world == x.core.world.(queue := x'.core.world.queue) && x'.core.rng == x.core.rng
    ensures x'.core.journal.sequence == x.core.journal.sequence + k
  {
  }

  lemma {:induction false} RunStreamAlike(
      s: Setup, m: Minds, m': Minds, x: Session, x': Session, k: int, agent: Agent, emissions: seq<Emission>, invocation: nat)
    requires InStep(s, x, x', k)
    ensures InStep(s, RunStream(s, m, x, agent, emissions, invocation), RunStream(s, m', x', agent, emissions, invocation), k)
    decreases |emissions|
  {
    hide InStep, TakeEmission;
    if |emissions| > 0 {
      TakeEmissionAlike(s, m, m', x, x', k, agent, emissions[0], invocation);
      var y, y' := TakeEmission(s, m, x, agent, emissions[0], invocation), TakeEmission(s, m', x', agent, emissions[0], invocation);
      AlikeWorld(s, y, y', k);
      RunStreamAlike(s, m, m', y, y', k, agent, emissions[1..], invocation);
    }
  }

  lemma LikeWork(s: Setup, c: Core, c': Core, k: int)
    requires Like(s, c, c', k)
    ensures Deeds(c.Events()) == Deeds(c'.Events())
  {
  }

  lemma InvokeAlike(
      s: Setup, m: Minds, m': Minds, x: Session, x': Session, k: int, agent: Agent, d: Delivery, cause: EventId, cause': EventId)
    requires InStep(s, x, x', k) && SameMinds(m, m')
    ensures InStep(s, Invoke(s, m, x, agent, d, cause), Invoke(s, m', x', agent, d, cause'), k)
  {
    hide Like, RunStream, Emit, EventView, Deeds;
    LikeTime(s, x.core, x'.core, k);
    AlikeWorld(s, x, x', k);
    var invocation := x.driver.invocations + 1;
    var draft := Draft(AgentInvoked, agent, x.core.world.time, [], Some(cause), Private, [agent], Invoked(invocation, d.content), NoResources);
    EmitLike(s, x.core, x'.core, k, draft, draft.(causation := Some(cause')));
    var r, r' := RequestFor(s, x, agent, d, invocation), RequestFor(s, x', agent, d, invocation);
    assert r' == r.(history := r'.history);
    LikeWork(s, x.core, x'.core, k);
    SameWorkSeen(x.core.Events(), x'.core.Events(), agent);
    var reply := m.invoke(agent, MemoOf(x, agent), r);
    RunStreamAlike(s, m, m', x.(core := Emit(x.core, draft), driver := x.driver.(invocations := invocation), memos := x.memos[agent := reply.memo]),
      x'.(core := Emit(x'.core, draft.(causation := Some(cause'))), driver := x'.driver.(invocations := invocation),
          memos := x'.memos[agent := reply.memo]), k, agent, reply.emissions, invocation);
  }

  lemma DeliverAlike(s: Setup, m: Minds, m': Minds, x: Session, x': Session, k: int, item: Item)
    requires InStep(s, x, x', k) && SameMinds(m, m')
    ensures InStep(s, DeliverAndInvoke(s, m, x, item), DeliverAndInvoke(s, m', x', item), k)
  {
    hide Like, Invoke, MaybeCheckpoint, Hand;
    LikeTime(s, x.core, x'.core, k);
    HandLike(s, x.core, x'.core, k, item);
    var y, y' := x.(core := Hand(x.core, item)), x'.(core := Hand(x'.core, item));
    MaybeCheckpointAlike(s, m, m', y, y', k);
    InvokeAlike(s, m, m', MaybeCheckpoint(s, m, y), MaybeCheckpoint(s, m', y'), k, item.delivery.recipient, item.delivery,
                EventId(x.core.journal.sequence), EventId(x'.core.journal.sequence));
  }

  lemma HandLike(s: Setup, c: Core, c': Core, k: int, item: Item)
    requires Like(s, c, c', k)
    ensures Like(s, Hand(c, item), Hand(c', item), k)
  {
    LikeTime(s, c, c', k);
    hide SameWorld, Emit, Deeds;
    var d := DeliveredDraft(item, c.world.time);
    EmitLike(s, c.(ledger := c.ledger.(handed := c.ledger.handed + [item])),
             c'.(ledger := c'.ledger.(handed := c'.ledger.handed + [item])), k, d, d);
  }

  lemma {:induction false} RunBatchAlike(s: Setup, m: Minds, m': Minds, x: Session, x': Session, k: int, items: seq<Item>)
    requires InStep(s, x, x', k) && SameMinds(m, m')
    ensures InStep(s, RunBatch(s, m, x, items), RunBatch(s, m', x', items), k)
    decreases |items|
  {
    hide InStep, DeliverAndInvoke, SameMinds;
    if |items| > 0 {
      DeliverAlike(s, m, m', x, x', k, items[0]);
      var y, y' := DeliverAndInvoke(s, m, x, items[0]), DeliverAndInvoke(s, m', x', items[0]);
      AlikeWorld(s, y, y', k);
      RunBatchAlike(s, m, m', y, y', k, items[1..]);
    }
  }

  lemma EndRoundAlike(s: Setup, x: Session, x': Session, k: int)
    requires InStep(s, x, x', k)
    ensures InStep(s, EndRound(s, x), EndRound(s, x'), k)
  {
    hide Like, AdvanceTo;
    LikeTime(s, x.core, x'.core, k);
    AdvanceLike(s, x.core, x'.core, k, x.core.world.time + s.clockStep);
  }

  // ---- the session loop, in step ----

  lemma {:induction false} LoopGrows(s: Setup, m: Minds, x: Session)
    ensures SessionLoop(s, m, x).0.core.journal.sequence >= x.core.journal.sequence
    decreases if x.core.journal.sequence < s.limits.maxEvents then s.limits.maxEvents - x.core.journal.sequence else 0,
              |x.core.world.queue|
  {
    hide RunBatch, LimitHit, NextDue, Popped, Remaining;
    if !x.core.world.finished && LimitHit(s, x.core).None? {
      LimitLeavesRoom(s, x.core);
      PopShrinks(s, x.core);
      var (core, due) := PopDue(s, x.core);
      var popped := x.(core := core);
      if |due| > 0 {
        EndRoundProgress(s, popped, RunBatch(s, m, popped, due));
        LoopGrows(s, m, EndRound(s, RunBatch(s, m, popped, due)));
      } else {
        NextDueIsLater(core.world.queue, core.world.time);
        if NextDue(core.world.queue).Some? && NextDue(core.world.queue).value <= s.limits.maxLogicalTime {
          LoopGrows(s, m, popped.(core := AdvanceTo(core, NextDue(core.world.queue).value)));
        }
      }
    }
  }

  lemma LimitAlike(s: Setup, c: Core, c': Core)
    requires c'.world == c.world.(queue := c'.world.queue)
    requires c.journal.sequence < s.limits.maxEvents && c'.journal.sequence < s.limits.maxEvents
    ensures LimitHit(s, c') == LimitHit(s, c)
  {
  }

  lemma AlikeQueues(s: Setup, x: Session, x': Session, k: int)
    requires InStep(s, x, x', k)
    ensures Canon(s.digest, x'.core.world.queue) == Canon(s.digest, x.core.world.queue)
  {
  }

  /** Popping, for whole sessions. */
  lemma PopAlike(s: Setup, x: Session, x': Session, k: int)
    requires InStep(s, x, x', k)
    ensures PopDue(s, x.core).1 == PopDue(s, x'.core).1
    ensures InStep(s, x.(core := PopDue(s, x.core).0), x'.(core := PopDue(s, x'.core).0), k)
    ensures NextDue(PopDue(s, x'.core).0.world.queue) == NextDue(PopDue(s, x.core).0.world.queue)
  {
    hide Like, PopDue;
    PopLike(s, x.core, x'.core, k);
    var y, y' := x.(core := PopDue(s, x.core).0), x'.(core := PopDue(s, x'.core).0);
    AlikeQueues(s, y, y', k);
    SameCanonSameNext(s.digest, y.core.world.queue, y'.core.world.queue);
  }

  lemma SkipAlike(s: Setup, x: Session, x': Session, k: int, time: int)
    requires InStep(s, x, x', k)
    ensures InStep(s, x.(core := AdvanceTo(x.core, time)), x'.(core := AdvanceTo(x'.core, time)), k)
  {
    hide Like, AdvanceTo;
    AdvanceLike(s, x.core, x'.core, k, time);
  }

  /** Sessions that have done the same work go on to do the same work, as long as neither
      comes to the event limit. */
  lemma {:induction false} LoopAlike(s: Setup, m: Minds, m': Minds, x: Session, x': Session, k: nat)
    requires InStep(s, x, x', k) && SameMinds(m, m')
    requires SessionLoop(s, m, x).0.core.journal.sequence + k < s.limits.maxEvents
    ensures InStep(s, SessionLoop(s, m, x).0, SessionLoop(s, m', x').0, k)
    ensures SessionLoop(s, m', x').1 == SessionLoop(s, m, x).1
    decreases if x.core.journal.sequence < s.limits.maxEvents then s.limits.maxEvents - x.core.journal.sequence else 0,
              |x.core.world.queue|
  {
    hide InStep, SameMinds, PopDue, RunBatch, EndRound, LimitHit, NextDue;
    LoopGrows(s, m, x);
    AlikeWorld(s, x, x', k);
    LimitAlike(s, x.core, x'.core);
    if !x.core.world.finished && LimitHit(s, x.core).None? {
      LimitLeavesRoom(s, x.core);
      PopShrinks(s, x.core);
      PopAlike(s, x, x', k);
      var (core, due) := PopDue(s, x.core);
      var core' := PopDue(s, x'.core).0;
      var y, y' := x.(core := core), x'.(core := core');
      if |due| > 0 {
        RunBatchAlike(s, m, m', y, y', k, due);
        EndRoundAlike(s, RunBatch(s, m, y, due), RunBatch(s, m', y', due), k);
        EndRoundProgress(s, y, RunBatch(s, m, y, due));
        LoopAlike(s, m, m', EndRound(s, RunBatch(s, m, y, due)), EndRound(s, RunBatch(s, m', y', due)), k);
      } else {
        NextDueIsLater(core.world.queue, core.world.time);
        match NextDue(core.world.queue) {
          case None =>
          case Some(next) =>
            if next <= s.limits.maxLogicalTime {
              SkipAlike(s, y, y', k, next);
              LoopAlike(s, m, m', y.(core := AdvanceTo(core, next)), y'.(core := AdvanceTo(core', next)), k);
            }
        }
      }
    }
  }
}
