/** What memory and the canonical log say about each other, and why every operation of
    World keeps it so. */
module Invariants {
  import opened Wrappers
  import opened Contracts
  import opened KernelState
  import opened Sorting
  import opened Scheduler
  import opened Store
  import opened Journals
  import opened WorldRules
  import opened DriverRules

  // ---- what a log adds up to ----

  /** The fold of `playback`: the in-order merge of every logged state change. */
  function PlaybackState(events: seq<Event>): Facts {
    if |events| == 0 then map[]
    else
      var e := events[|events| - 1];
      PlaybackState(events[..|events| - 1]) + (if e.kind.StateChanged? && e.body.Changed? then e.body.updates else map[])
  }

  function IsDelivery(): Event -> bool {
    (e: Event) => e.kind.MessageDelivered?
  }

  function Deliveries(events: seq<Event>): seq<Event> {
    Filter(events, IsDelivery())
  }

  /** How far a log has come: working, then perhaps payoffs, a verdict, and the end. */
  datatype Phase = Working | Paid | Judged | Finished | Broken

  function NextPhase(p: Phase, kind: EventKind): Phase {
    match kind
    case PayoffAssigned => if p.Working? then Phase.Paid else Broken
    case VerifierResult => if p.Working? || p.Paid? then Phase.Judged else Broken
    case RunFinished => if p.Working? || p.Judged? then Finished else Broken
    case _ => if p.Working? then Working else Broken
  }

  function PhaseOf(events: seq<Event>): Phase {
    if |events| == 0 then Working else NextPhase(PhaseOf(events[..|events| - 1]), events[|events| - 1].kind)
  }

  lemma Snoc(events: seq<Event>, e: Event)
    ensures PlaybackState(events + [e])
         == PlaybackState(events) + (if e.kind.StateChanged? && e.body.Changed? then e.body.updates else map[])
    ensures TotalResources(events + [e]) == TotalResources(events).Plus(e.delta)
    ensures forall k :: CountKind(events + [e], k) == CountKind(events, k) + (if e.kind == k then 1 else 0)
    ensures Deliveries(events + [e]) == Deliveries(events) + (if e.kind.MessageDelivered? then [e] else [])
    ensures PhaseOf(events + [e]) == NextPhase(PhaseOf(events), e.kind)
  {
    assert (events + [e])[..|events|] == events;
  }

  // ---- memory against the log ----

  /** What memory already holds and the log does not show yet: state updates of a change
      that is being applied, resources of an emission that is being handled, and popped
      deliveries still to be handed over. */
  datatype Debt = Debt(updates: Facts, spent: ResourceDelta, batch: seq<Item>)

  const NoDebt := Debt(map[], NoResources, [])

  /** The state is the initial state overlaid with the log's changes. */
  ghost predicate Mirrors(s: Setup, state: Facts, updates: Facts, events: seq<Event>) {
    state == s.initialState + PlaybackState(events) + updates
  }

  ghost predicate Timely(events: seq<Event>) {
    forall i, j :: 0 <= i < j < |events| ==> events[i].time <= events[j].time
  }

  ghost predicate NotAhead(events: seq<Event>, now: int) {
    forall i :: 0 <= i < |events| ==> events[i].time <= now
  }

  function ItemOf(): Posted -> Item {
    (p: Posted) => p.item
  }

  ghost predicate WellAddressed(s: Setup, dropped: set<Agent>, items: seq<Item>) {
    forall i :: i in items ==> Deliverable(s, dropped, i.delivery)
  }

  /** Every scheduled item is queued, popped or removed, exactly once, and the counters
      count them; `Taken`: what was handed over or is in hand was popped. */
  ghost predicate Stocked(queue: seq<Item>, counted: int, posted: seq<Posted>, popped: seq<Item>, removed: seq<Item>) {
    && multiset(Map(posted, ItemOf())) == multiset(queue) + multiset(popped) + multiset(removed)
    && |posted| == counted
  }

  ghost predicate Taken(handed: seq<Item>, batch: seq<Item>, popped: seq<Item>) {
    multiset(handed) + multiset(batch) <= multiset(popped)
  }

  /** An item is due the latency and its own extra delay after it was scheduled; delay faults may
      make that later, or with negative ticks earlier. */
  ghost predicate Delayed(s: Setup, time: int, posted: seq<Posted>, batch: seq<Item>) {
    && (forall p :: p in posted ==> p.at <= time && FairlyDelayed(s, p.item, p.at))
    && (forall i :: i in batch ==> i.due <= time)
  }

  ghost predicate FairlyDelayed(s: Setup, item: Item, at: int) {
    && ((forall f :: f in s.faults ==> f.delayTicks >= 0) ==> item.due >= at + s.latency + item.delivery.extraDelay)
    && ((forall f :: f in s.faults ==> !f.kind.DelayMessage?) ==> item.due == at + s.latency + item.delivery.extraDelay)
  }

  ghost predicate Shows(e: Event, i: Item) {
    && e.body == Delivered(i.delivery.sender, i.delivery.recipient, i.delivery.content, i.delivery.payload)
    && e.targets == [i.delivery.recipient]
    && e.visibility == i.delivery.visibility
    && e.time >= i.due
  }

  /** The k-th delivered event is the k-th item handed over. */
  ghost predicate Matched(handed: seq<Item>, events: seq<Event>) {
    && |Deliveries(events)| == |handed|
    && forall k :: 0 <= k < |handed| ==> Shows(Deliveries(events)[k], handed[k])
  }

  /** Equal resources; World alone also counts message bytes. */
  ghost predicate SameSpending(a: ResourceDelta, b: ResourceDelta) {
    a == b.(messageBytes := a.messageBytes)
  }

  ghost predicate Budgeted(
      s: Setup, calls: int, resources: ResourceDelta, unlogged: ResourceDelta, spent: ResourceDelta, events: seq<Event>)
  {
    && SameSpending(resources, TotalResources(events).Plus(unlogged).Plus(spent))
    && (s.driver.SessionDriven? ==> calls == resources.modelCalls)
  }

  ghost function ListedUpTo(fault: FaultSpec, n: nat): set<int> {
    set k | k in fault.onOccurrences && 1 <= k <= n
  }

  ghost predicate FaultTally(fault: FaultSpec, reached: nat, fired: nat) {
    && (fault.kind.AgentDropout? ==> reached == 0 && fired == 0)
    && (!fault.kind.AgentDropout? && fault.onOccurrences != [] ==> fired == |ListedUpTo(fault, reached)|)
  }

  function Sum(ns: seq<nat>): nat {
    if |ns| == 0 then 0 else Sum(ns[..|ns| - 1]) + ns[|ns| - 1]
  }

  ghost predicate Tallied(s: Setup, occurrences: map<nat, nat>, fired: seq<nat>, events: seq<Event>) {
    && |fired| == |s.faults|
    && (forall i :: 0 <= i < |s.faults| ==> FaultTally(s.faults[i], Reached(occurrences, i), fired[i]))
    && Sum(fired) == CountKind(events, FaultInjected)
  }

  predicate SecretKind(kind: EventKind) {
    kind.FaultInjected? || kind.PayoffAssigned? || kind.VerifierResult?
  }

  predicate ProperlyHidden(kind: EventKind, visibility: Visibility) {
    && (SecretKind(kind) ==> visibility.OmniscientOnly?)
    && (kind.StateChanged? ==> visibility.Public?)
  }

  ghost predicate Secret(events: seq<Event>) {
    forall i :: 0 <= i < |events| ==> ProperlyHidden(events[i].kind, events[i].visibility)
  }

  ghost predicate Faithful(s: Setup, w: WorldState, l: Ledger, debt: Debt, events: seq<Event>) {
    && Mirrors(s, w.state, debt.updates, events)
    && NotAhead(events, w.time)
    && WellAddressed(s, w.dropped, w.queue)
    && Stocked(w.queue, w.counters.messages + w.counters.duplicates, l.posted, l.popped, l.removed)
    && Taken(l.handed, debt.batch, l.popped)
    && Delayed(s, w.time, l.posted, debt.batch)
    && Matched(l.handed, events)
    && Budgeted(s, w.counters.modelCalls, w.resources, l.unlogged, debt.spent, events)
    && Tallied(s, w.occurrences, l.fired, events)
  }

  /** Between operations of a driver nothing of the end has been logged yet. */
  ghost predicate Agrees(s: Setup, w: WorldState, l: Ledger, debt: Debt, events: seq<Event>) {
    Faithful(s, w, l, debt, events) && PhaseOf(events) == Working
  }

  // ---- the disk ----

  /** The checkpoint describes the first `sequence` events of the log. */
  ghost predicate Pins(s: Setup, c: Checkpoint, events: seq<Event>) {
    && c.sequence == c.index <= |events|
    && Agrees(s, c.world, c.ledger, NoDebt, events[..c.sequence])
  }

  ghost predicate SoundLog(events: seq<Event>) {
    Dense(events) && Timely(events) && Secret(events) && !PhaseOf(events).Broken?
  }

  ghost predicate Sound(s: Setup, t: Tables) {
    && SoundLog(t.events)
    && forall q :: q in t.checkpoints ==> t.checkpoints[q].sequence == q && Pins(s, t.checkpoints[q], t.events)
  }

  /** What was there at some moment and must stay: the pinned first part of the log, the
      stored checkpoints, and the durable states up to that moment. */
  datatype Anchor = Anchor(events: seq<Event>, checkpoints: map<nat, Checkpoint>, start: seq<Tables>)

  ghost predicate Keeps(a: Anchor, t: Tables) {
    && a.events <= t.events
    && forall q :: q in a.checkpoints ==> q in t.checkpoints && t.checkpoints[q] == a.checkpoints[q]
  }

  /** From the last of the first `n` durable states on, every durable log is a prefix of the present one. */
  ghost predicate AppendOnly(trail: seq<Tables>, n: nat, events: seq<Event>) {
    forall i :: n <= i + 1 && 0 <= i < |trail| ==> trail[i].events <= events
  }

  ghost predicate Durable(s: Setup, a: Anchor, d: Disk) {
    && |a.start| > 0 && a.start <= d.trail && d.trail[|d.trail| - 1] == d.tables
    && (forall i :: 0 <= i < |d.trail| ==> Sound(s, d.trail[i]) && Keeps(a, d.trail[i]))
    && AppendOnly(d.trail, |a.start|, d.tables.events)
  }

  /** New checkpoints come after the ones found. */
  ghost predicate Beyond(a: Anchor, events: seq<Event>) {
    forall q :: q in a.checkpoints ==> q < |events|
  }

  /** The state between two operations of a live controller. */
  ghost predicate Good(s: Setup, a: Anchor, c: Core, debt: Debt) {
    && Synced(c.journal)
    && Durable(s, a, c.journal.disk)
    && Beyond(a, c.Events())
    && Agrees(s, c.world, c.ledger, debt, c.Events())
  }

  lemma SaveKeepsDurable(s: Setup, a: Anchor, d: Disk, t: Tables)
    requires Durable(s, a, d) && Sound(s, t) && Keeps(a, t) && d.tables.events <= t.events
    ensures Durable(s, a, d.Save(t))
  {
    hide Sound, Keeps;
    assert forall i :: |a.start| <= i + 1 && 0 <= i < |d.trail| ==> d.trail[i].events <= t.events;
  }

  // ---- writing one event ----

  lemma AppendKeepsPins(s: Setup, c: Checkpoint, events: seq<Event>, e: Event)
    requires Pins(s, c, events)
    ensures Pins(s, c, events + [e])
  {
    assert (events + [e])[..c.sequence] == events[..c.sequence];
  }

  lemma AppendKeepsSound(s: Setup, t: Tables, e: Event)
    requires Sound(s, t)
    requires e.sequence == |t.events| && e.id == EventId(e.sequence) && e.key == Some(Key(e.sequence, e.kind, e.actor))
    requires NotAhead(t.events, e.time) && ProperlyHidden(e.kind, e.visibility)
    requires !NextPhase(PhaseOf(t.events), e.kind).Broken?
    ensures Sound(s, t.(events := t.events + [e]))
  {
    hide Pins, PhaseOf;
    Snoc(t.events, e);
    forall q | q in t.checkpoints ensures Pins(s, t.checkpoints[q], t.events + [e]) {
      AppendKeepsPins(s, t.checkpoints[q], t.events, e);
    }
  }

  lemma EmitKeepsDisk(s: Setup, a: Anchor, c: Core, d: Draft)
    requires Synced(c.journal) && Durable(s, a, c.journal.disk)
    requires NotAhead(c.Events(), d.time)
    requires ProperlyHidden(d.kind, d.visibility)
    requires !NextPhase(PhaseOf(c.Events()), d.kind).Broken?
    ensures Synced(Emit(c, d).journal) && Durable(s, a, Emit(c, d).journal.disk)
  {
    hide Sound, NotAhead, PhaseOf;
    var t, e := c.journal.disk.tables, NextEvent(c, d);
    assert Sound(s, t) && Keeps(a, t);
    AppendKeepsSound(s, t, e);
    SaveKeepsDurable(s, a, c.journal.disk, t.(events := t.events + [e]));
  }

  predicate Plain(kind: EventKind) {
    !SecretKind(kind) && !kind.StateChanged? && !kind.MessageDelivered? && !kind.RunFinished?
  }

  function NextEvent(c: Core, d: Draft): Event {
    Stamp(c.journal.attempt, c.journal.sequence, c.journal.index, d)
  }

  lemma AgreesNow(s: Setup, w: WorldState, l: Ledger, debt: Debt, events: seq<Event>)
    requires Agrees(s, w, l, debt, events)
    ensures NotAhead(events, w.time) && PhaseOf(events) == Working
  {
  }

  /** Writing an event keeps everything if the log with it agrees with memory. */
  lemma EmitKeeps(s: Setup, a: Anchor, c: Core, d: Draft, after: Debt)
    requires Synced(c.journal) && Durable(s, a, c.journal.disk)
    requires NotAhead(c.Events(), d.time) && PhaseOf(c.Events()) == Working
    requires ProperlyHidden(d.kind, d.visibility)
    requires Agrees(s, c.world, c.ledger, after, c.Events() + [NextEvent(c, d)])
    requires forall q :: q in a.checkpoints ==> q <= |c.Events()|
    ensures Good(s, a, Emit(c, d), after)
  {
    hide Agrees, Durable, Synced;
    assert !NextPhase(Working, d.kind).Broken?;
    EmitKeepsDisk(s, a, c, d);
  }

  // One conjunct of `Agrees` at a time, for a log with one more event.

  lemma MirrorsNext(s: Setup, state: Facts, updates: Facts, events: seq<Event>, e: Event)
    requires Mirrors(s, state, updates, events) && !e.kind.StateChanged?
    ensures Mirrors(s, state, updates, events + [e])
  {
    Snoc(events, e);
    assert PlaybackState(events) + map[] == PlaybackState(events);
  }

  lemma MirrorsSettled(s: Setup, state: Facts, updates: Facts, events: seq<Event>, e: Event)
    requires Mirrors(s, state, updates, events) && e.kind.StateChanged? && e.body.Changed? && e.body.updates == updates
    ensures Mirrors(s, state, map[], events + [e])
  {
    Snoc(events, e);
    hide PlaybackState;
    MergeFacts(s.initialState, PlaybackState(events), updates);
  }

  lemma MergeFacts(a: Facts, b: Facts, c: Facts)
    ensures a + (b + c) == (a + b) + c && (a + b) + map[] == a + b && (a + (b + c)) + map[] == a + (b + c)
  {
  }

  lemma NotAheadNext(events: seq<Event>, e: Event)
    requires NotAhead(events, e.time)
    ensures NotAhead(events + [e], e.time)
  {
  }

  lemma MatchedNext(handed: seq<Item>, events: seq<Event>, e: Event)
    requires Matched(handed, events) && !e.kind.MessageDelivered?
    ensures Matched(handed, events + [e])
  {
    Snoc(events, e);
  }

  lemma MatchedHanded(handed: seq<Item>, events: seq<Event>, e: Event, item: Item)
    requires Matched(handed, events) && e.kind.MessageDelivered? && Shows(e, item)
    ensures Matched(handed + [item], events + [e])
  {
    Snoc(events, e);
  }

  lemma BudgetedNext(
      s: Setup, calls: int, resources: ResourceDelta, unlogged: ResourceDelta, spent: ResourceDelta, events: seq<Event>,
      e: Event, left: ResourceDelta)
    requires Budgeted(s, calls, resources, unlogged, spent, events) && left.Plus(e.delta) == spent
    ensures Budgeted(s, calls, resources, unlogged, left, events + [e])
  {
    Snoc(events, e);
  }

  lemma TalliedNext(s: Setup, occurrences: map<nat, nat>, fired: seq<nat>, events: seq<Event>, e: Event)
    requires Tallied(s, occurrences, fired, events) && !e.kind.FaultInjected?
    ensures Tallied(s, occurrences, fired, events + [e])
  {
    Snoc(events, e);
  }

  lemma WorkingNext(events: seq<Event>, e: Event)
    requires PhaseOf(events) == Working && NextPhase(Working, e.kind) == Working
    ensures PhaseOf(events + [e]) == Working
  {
    Snoc(events, e);
  }

  /** An event that records neither a state change, a delivery nor a fault. */
  lemma FaithfulNext(s: Setup, w: WorldState, l: Ledger, debt: Debt, events: seq<Event>, e: Event, after: Debt)
    requires Faithful(s, w, l, debt, events)
    requires !e.kind.StateChanged? && !e.kind.MessageDelivered? && !e.kind.FaultInjected? && e.time == w.time
    requires after.spent.Plus(e.delta) == debt.spent && after.updates == debt.updates && after.batch == debt.batch
    ensures Faithful(s, w, l, after, events + [e])
  {
    hide Mirrors, NotAhead, WellAddressed, Stocked, Taken, Delayed, Matched, Budgeted, Tallied, PhaseOf;
    MirrorsNext(s, w.state, debt.updates, events, e);
    NotAheadNext(events, e);
    MatchedNext(l.handed, events, e);
    BudgetedNext(s, w.counters.modelCalls, w.resources, l.unlogged, debt.spent, events, e, after.spent);
    TalliedNext(s, w.occurrences, l.fired, events, e);
  }

  lemma FaithfulQuiet(s: Setup, w: WorldState, l: Ledger, debt: Debt, events: seq<Event>, e: Event)
    requires Faithful(s, w, l, debt, events)
    requires !e.kind.StateChanged? && !e.kind.MessageDelivered? && !e.kind.FaultInjected? && e.time == w.time
    requires e.delta == NoResources
    ensures Faithful(s, w, l, debt, events + [e])
  {
    hide Faithful;
    assert debt.spent.Plus(NoResources) == debt.spent;
    FaithfulNext(s, w, l, debt, events, e, debt);
  }

  lemma PlainAgrees(s: Setup, w: WorldState, l: Ledger, debt: Debt, events: seq<Event>, e: Event, after: Debt)
    requires Agrees(s, w, l, debt, events)
    requires Plain(e.kind) && e.time == w.time
    requires after.spent.Plus(e.delta) == debt.spent && after.updates == debt.updates && after.batch == debt.batch
    ensures Agrees(s, w, l, after, events + [e])
  {
    hide Faithful, PhaseOf;
    FaithfulNext(s, w, l, debt, events, e, after);
    WorkingNext(events, e);
  }

  lemma QuietAgrees(s: Setup, w: WorldState, l: Ledger, debt: Debt, events: seq<Event>, e: Event)
    requires Agrees(s, w, l, debt, events)
    requires Plain(e.kind) && e.time == w.time && e.delta == NoResources
    ensures Agrees(s, w, l, debt, events + [e])
  {
    hide Faithful, PhaseOf;
    FaithfulQuiet(s, w, l, debt, events, e);
    WorkingNext(events, e);
  }

  /** An event that records neither a state change, a delivery, a fault nor the end; it may settle resources. */
  lemma EmitPlain(s: Setup, a: Anchor, c: Core, d: Draft, debt: Debt, after: Debt)
    requires Good(s, a, c, debt)
    requires Plain(d.kind) && d.time == c.world.time
    requires after.spent.Plus(d.delta) == debt.spent && after.updates == debt.updates && after.batch == debt.batch
    ensures Good(s, a, Emit(c, d), after)
  {
    hide Agrees, Durable, Synced;
    AgreesNow(s, c.world, c.ledger, debt, c.Events());
    PlainAgrees(s, c.world, c.ledger, debt, c.Events(), NextEvent(c, d), after);
    EmitKeeps(s, a, c, d, after);
  }

  /** An event without resources. */
  lemma EmitQuiet(s: Setup, a: Anchor, c: Core, d: Draft, debt: Debt)
    requires Good(s, a, c, debt)
    requires Plain(d.kind) && d.time == c.world.time && d.delta == NoResources
    ensures Good(s, a, Emit(c, d), debt)
  {
    hide Good;
    assert debt.spent.Plus(NoResources) == debt.spent;
    EmitPlain(s, a, c, d, debt, debt);
  }

  lemma ChangedAgrees(s: Setup, w: WorldState, l: Ledger, debt: Debt, events: seq<Event>, e: Event)
    requires Agrees(s, w, l, debt, events)
    requires e.kind.StateChanged? && e.body.Changed? && e.body.updates == debt.updates
    requires e.time == w.time && e.delta == NoResources
    ensures Agrees(s, w, l, debt.(updates := map[]), events + [e])
  {
    hide Mirrors, NotAhead, WellAddressed, Stocked, Taken, Delayed, Matched, Budgeted, Tallied, PhaseOf;
    MirrorsSettled(s, w.state, debt.updates, events, e);
    NotAheadNext(events, e);
    MatchedNext(l.handed, events, e);
    BudgetedNext(s, w.counters.modelCalls, w.resources, l.unlogged, debt.spent, events, e, debt.spent);
    TalliedNext(s, w.occurrences, l.fired, events, e);
    WorkingNext(events, e);
  }

  /** The state-changed event settles the updates. */
  lemma EmitChanged(s: Setup, a: Anchor, c: Core, d: Draft, debt: Debt)
    requires Good(s, a, c, debt)
    requires d.kind.StateChanged? && d.body.Changed? && d.body.updates == debt.updates
    requires d.visibility.Public? && d.time == c.world.time && d.delta == NoResources
    ensures Good(s, a, Emit(c, d), debt.(updates := map[]))
  {
    hide Agrees, Durable, Synced;
    AgreesNow(s, c.world, c.ledger, debt, c.Events());
    ChangedAgrees(s, c.world, c.ledger, debt, c.Events(), NextEvent(c, d));
    EmitKeeps(s, a, c, d, debt.(updates := map[]));
  }

  lemma TakeFirst(s: Setup, time: int, l: Ledger, batch: seq<Item>)
    requires |batch| > 0 && Taken(l.handed, batch, l.popped) && Delayed(s, time, l.posted, batch)
    ensures batch[0].due <= time
    ensures Taken(l.handed + [batch[0]], batch[1..], l.popped) && Delayed(s, time, l.posted, batch[1..])
  {
    assert batch == [batch[0]] + batch[1..];
  }

  lemma HandedAgrees(s: Setup, w: WorldState, l: Ledger, debt: Debt, events: seq<Event>, e: Event)
    requires Agrees(s, w, l, debt, events)
    requires |debt.batch| > 0
    requires e.kind.MessageDelivered? && e.time == w.time && e.delta == NoResources
    requires w.time >= debt.batch[0].due ==> Shows(e, debt.batch[0])
    ensures Agrees(s, w, l.(handed := l.handed + [debt.batch[0]]), debt.(batch := debt.batch[1..]), events + [e])
  {
    hide Mirrors, NotAhead, WellAddressed, Stocked, Taken, Delayed, Matched, Budgeted, Tallied, PhaseOf;
    TakeFirst(s, w.time, l, debt.batch);
    MirrorsNext(s, w.state, debt.updates, events, e);
    NotAheadNext(events, e);
    MatchedHanded(l.handed, events, e, debt.batch[0]);
    BudgetedNext(s, w.counters.modelCalls, w.resources, l.unlogged, debt.spent, events, e, debt.spent);
    TalliedNext(s, w.occurrences, l.fired, events, e);
    WorkingNext(events, e);
  }

  /** Handing over the first item of the batch. */
  lemma HandKeeps(s: Setup, a: Anchor, c: Core, item: Item, debt: Debt)
    requires Good(s, a, c, debt)
    requires |debt.batch| > 0 && debt.batch[0] == item
    ensures Good(s, a, Hand(c, item), debt.(batch := debt.batch[1..]))
  {
    hide Agrees, Durable, Synced;
    var c1 := c.(ledger := c.ledger.(handed := c.ledger.handed + [item]));
    var d := DeliveredDraft(item, c.world.time);
    AgreesNow(s, c.world, c.ledger, debt, c.Events());
    HandedAgrees(s, c.world, c.ledger, debt, c.Events(), NextEvent(c, d));
    EmitKeeps(s, a, c1, d, debt.(batch := debt.batch[1..]));
  }

  // ---- scheduling ----

  /** An item World is about to queue. */
  ghost predicate InHand(s: Setup, w: WorldState, item: Item) {
    Deliverable(s, w.dropped, item.delivery) && FairlyDelayed(s, item, w.time)
  }

  lemma PostBooks(s: Setup, w: WorldState, l: Ledger, item: Item, counted: int)
    requires InHand(s, w, item)
    requires WellAddressed(s, w.dropped, w.queue) && Stocked(w.queue, counted, l.posted, l.popped, l.removed)
    ensures WellAddressed(s, w.dropped, w.queue + [item])
    ensures Stocked(w.queue + [item], counted + 1, l.posted + [Posted(item, w.time)], l.popped, l.removed)
  {
    hide Deliverable, FairlyDelayed;
    MapSnoc(l.posted, Posted(item, w.time), ItemOf());
  }

  lemma PostDelays(s: Setup, w: WorldState, l: Ledger, item: Item, batch: seq<Item>)
    requires InHand(s, w, item) && Delayed(s, w.time, l.posted, batch)
    ensures Delayed(s, w.time, l.posted + [Posted(item, w.time)], batch)
  {
    hide Deliverable, FairlyDelayed;
  }

  lemma SameBudget(s: Setup, calls: int, resources: ResourceDelta, unlogged: ResourceDelta, spent: ResourceDelta, events: seq<Event>,
                   resources': ResourceDelta)
    requires Budgeted(s, calls, resources, unlogged, spent, events) && SameSpending(resources', resources)
    ensures Budgeted(s, calls, resources', unlogged, spent, events)
  {
    hide TotalResources, ResourceDelta.Plus;
  }

  lemma PostKeeps(s: Setup, a: Anchor, c: Core, item: Item, debt: Debt, c': Core)
    requires Good(s, a, c, debt) && InHand(s, c.world, item)
    requires c' == Post(c, item).(world := c'.world)
    requires c'.world == Post(c, item).world.(counters := c'.world.counters, resources := c'.world.resources)
    requires c'.world.counters.messages + c'.world.counters.duplicates
          == c.world.counters.messages + c.world.counters.duplicates + 1
    requires c'.world.counters.modelCalls == c.world.counters.modelCalls
    requires SameSpending(c'.world.resources, c.world.resources)
    ensures Good(s, a, c', debt)
  {
    hide Mirrors, NotAhead, WellAddressed, Stocked, Taken, Delayed, Matched, Budgeted, Tallied, PhaseOf, Synced, Durable,
         InHand, SameSpending;
    PostBooks(s, c.world, c.ledger, item, c.world.counters.messages + c.world.counters.duplicates);
    PostDelays(s, c.world, c.ledger, item, debt.batch);
    SameBudget(s, c.world.counters.modelCalls, c.world.resources, c.ledger.unlogged, debt.spent, c.Events(), c'.world.resources);
  }

  lemma AcceptKeeps(s: Setup, a: Anchor, c: Core, item: Item, size: nat, debt: Debt)
    requires Good(s, a, c, debt) && InHand(s, c.world, item)
    ensures Good(s, a, Accept(c, item, size), debt)
  {
    PostKeeps(s, a, c, item, debt, Accept(c, item, size));
  }

  // ---- faults ----

  lemma {:induction false} ReverseKeepsSize(text: string)
    ensures Utf8Size(Reverse(text)) == Utf8Size(text)
  {
    if |text| > 0 {
      var front, last := text[..|text| - 1], text[|text| - 1];
      ReverseKeepsSize(front);
      SizeOfConcat([last], Reverse(front));
      assert [last][..0] == [];
      SizeOfConcat(front, [last]);
      assert text == front + [last];
    }
  }

  lemma {:induction false} SizeOfConcat(a: string, b: string)
    ensures Utf8Size(a + b) == Utf8Size(a) + Utf8Size(b)
  {
    if |b| == 0 {
      assert a + b == a;
    } else {
      SizeOfConcat(a, b[..|b| - 1]);
      assert (a + b)[..|a + b| - 1] == a + b[..|b| - 1];
    }
  }

  lemma TransformKeepsInHand(s: Setup, w: WorldState, fault: FaultSpec, item: Item)
    requires InHand(s, w, item) && fault in s.faults
    ensures InHand(s, w, Transform(fault, item))
  {
    ReverseKeepsSize(item.delivery.content);
  }

  lemma ListedStep(fault: FaultSpec, n: nat)
    ensures |ListedUpTo(fault, n + 1)| == |ListedUpTo(fault, n)| + (if n + 1 in fault.onOccurrences then 1 else 0)
  {
    var a, b := ListedUpTo(fault, n), ListedUpTo(fault, n + 1);
    if n + 1 in fault.onOccurrences {
      assert b == a + {n + 1};
    } else {
      assert b == a;
    }
  }

  lemma {:induction false} SumBump(ns: seq<nat>, i: nat)
    requires i < |ns|
    ensures Sum(Bump(ns, i)) == Sum(ns) + 1
  {
    var n := |ns| - 1;
    if i == n {
      assert Bump(ns, i)[..n] == ns[..n];
    } else {
      SumBump(ns[..n], i);
      assert Bump(ns, i)[..n] == Bump(ns[..n], i);
    }
  }

  /** What scheduling never touches. */
  ghost predicate SameSettings(c': Core, c: Core) {
    && c'.world.time == c.world.time && c'.world.dropped == c.world.dropped
    && c'.world.state == c.world.state && c'.world.finished == c.world.finished
    && c'.world.counters.modelCalls == c.world.counters.modelCalls
  }

  lemma OthersUncounted(s: Setup, c: Core, index: nat)
    requires index < |s.faults|
    ensures var w' := FaultFires(s, c, index).0.world;
      && w' == c.world.(occurrences := w'.occurrences)
      && forall i :: 0 <= i < |s.faults| && i != index ==>
           Reached(w'.occurrences, i) == Reached(c.world.occurrences, i)
  {
  }

  lemma MissedTally(s: Setup, c: Core, index: nat, events: seq<Event>)
    requires index < |s.faults| && !FaultFires(s, c, index).1
    requires Tallied(s, c.world.occurrences, c.ledger.fired, events)
    ensures Tallied(s, FaultFires(s, c, index).0.world.occurrences, c.ledger.fired, events)
  {
    ListedStep(s.faults[index], Reached(c.world.occurrences, index));
    OthersUncounted(s, c, index);
  }

  /** Counting an occurrence that did not fire. */
  lemma CountKeeps(s: Setup, a: Anchor, c: Core, index: nat, debt: Debt)
    requires Good(s, a, c, debt) && index < |s.faults| && !FaultFires(s, c, index).1
    ensures Good(s, a, FaultFires(s, c, index).0, debt)
  {
    hide Mirrors, NotAhead, WellAddressed, Stocked, Taken, Delayed, Matched, Budgeted, Tallied, PhaseOf, Synced, Durable;
    MissedTally(s, c, index, c.Events());
    OthersUncounted(s, c, index);
  }

  lemma FiredTally(s: Setup, c: Core, index: nat, events: seq<Event>, e: Event)
    requires index < |s.faults| && FaultFires(s, c, index).1
    requires Tallied(s, c.world.occurrences, c.ledger.fired, events) && e.kind.FaultInjected?
    ensures Tallied(s, FaultFires(s, c, index).0.world.occurrences, Bump(c.ledger.fired, index), events + [e])
  {
    Snoc(events, e);
    ListedStep(s.faults[index], Reached(c.world.occurrences, index));
    SumBump(c.ledger.fired, index);
    OthersUncounted(s, c, index);
  }

  lemma FiredAgrees(s: Setup, c: Core, index: nat, debt: Debt, e: Event)
    requires index < |s.faults| && FaultFires(s, c, index).1
    requires Agrees(s, c.world, c.ledger, debt, c.Events())
    requires e.kind.FaultInjected? && e.time == c.world.time && e.delta == NoResources
    ensures Agrees(s, FaultFires(s, c, index).0.world, c.ledger.(fired := Bump(c.ledger.fired, index)), debt, c.Events() + [e])
  {
    hide Mirrors, NotAhead, WellAddressed, Stocked, Taken, Delayed, Matched, Budgeted, Tallied, PhaseOf;
    FiredTally(s, c, index, c.Events(), e);
    OthersUncounted(s, c, index);
    MirrorsNext(s, c.world.state, debt.updates, c.Events(), e);
    NotAheadNext(c.Events(), e);
    MatchedNext(c.ledger.handed, c.Events(), e);
    BudgetedNext(s, c.world.counters.modelCalls, c.world.resources, c.ledger.unlogged, debt.spent, c.Events(), e, debt.spent);
    WorkingNext(c.Events(), e);
  }

  function Fire(s: Setup, c: Core, index: nat, d: Delivery): Core
    requires index < |s.faults|
  {
    var c1 := FaultFires(s, c, index).0;
    Emit(c1.(ledger := c1.ledger.(fired := Bump(c1.ledger.fired, index))), FaultDraft(s.faults[index].kind, c1.world.time, d))
  }

  /** Counting an occurrence that fired, and logging the fault. */
  lemma FireKeeps(s: Setup, a: Anchor, c: Core, index: nat, d: Delivery, debt: Debt)
    requires Good(s, a, c, debt) && index < |s.faults| && FaultFires(s, c, index).1
    ensures Good(s, a, Fire(s, c, index, d), debt)
  {
    hide Agrees, Durable, Synced;
    var c1 := FaultFires(s, c, index).0;
    var c2 := c1.(ledger := c1.ledger.(fired := Bump(c1.ledger.fired, index)));
    var draft := FaultDraft(s.faults[index].kind, c1.world.time, d);
    AgreesNow(s, c.world, c.ledger, debt, c.Events());
    FiredAgrees(s, c, index, debt, NextEvent(c, draft));
    EmitKeeps(s, a, c2, draft, debt);
  }

  lemma InHandElsewhere(s: Setup, c: Core, c': Core, item: Item)
    requires InHand(s, c.world, item) && SameSettings(c', c)
    ensures InHand(s, c'.world, item)
  {
  }

  lemma ApplyFaultKeeps(s: Setup, a: Anchor, c: Core, index: nat, item: Item, debt: Debt)
    requires Good(s, a, c, debt) && index < |s.faults| && InHand(s, c.world, item)
    ensures var (c', o) := ApplyFault(s, c, index, item);
      Good(s, a, c', debt) && SameSettings(c', c) && (o.Some? ==> InHand(s, c'.world, o.value))
  {
    hide Good, InHand;
    var fault := s.faults[index];
    if AppliesTo(fault, item.delivery) {
      if !FaultFires(s, c, index).1 {
        CountKeeps(s, a, c, index, debt);
        InHandElsewhere(s, c, FaultFires(s, c, index).0, item);
      } else {
        FireKeeps(s, a, c, index, item.delivery, debt);
        var c2 := Fire(s, c, index, item.delivery);
        InHandElsewhere(s, c, c2, item);
        TransformKeepsInHand(s, c2.world, fault, item);
        if fault.kind.DuplicateMessage? {
          DuplicateKeeps(s, a, c2, item, debt);
          InHandElsewhere(s, c2, ApplyFault(s, c, index, item).0, item);
        }
      }
    }
  }

  lemma DuplicateKeeps(s: Setup, a: Anchor, c: Core, item: Item, debt: Debt)
    requires Good(s, a, c, debt) && InHand(s, c.world, item)
    ensures var c' := Post(c, item.(duplicate := 1));
      Good(s, a, c'.(world := c'.world.(counters := c'.world.counters.(duplicates := c'.world.counters.duplicates + 1))), debt)
  {
    hide Good;
    var c' := Post(c, item.(duplicate := 1));
    PostKeeps(s, a, c, item.(duplicate := 1), debt,
      c'.(world := c'.world.(counters := c'.world.counters.(duplicates := c'.world.counters.duplicates + 1))));
  }

  lemma {:induction false} ApplyFaultsKeeps(s: Setup, a: Anchor, c: Core, item: Item, count: nat, debt: Debt)
    requires Good(s, a, c, debt) && count <= |s.faults| && InHand(s, c.world, item)
    ensures var (c', o) := ApplyFaults(s, c, item, count);
      Good(s, a, c', debt) && SameSettings(c', c) && (o.Some? ==> InHand(s, c'.world, o.value))
  {
    hide Good, InHand, ApplyFault;
    if count > 0 {
      ApplyFaultsKeeps(s, a, c, item, count - 1, debt);
      var (c1, o) := ApplyFaults(s, c, item, count - 1);
      if o.Some? {
        ApplyFaultKeeps(s, a, c1, count - 1, o.value, debt);
      }
    }
  }

  lemma PolicyKeeps(s: Setup, a: Anchor, c: Core, rule: string, subject: string, amount: int, debt: Debt)
    requires Good(s, a, c, debt)
    ensures Good(s, a, PolicyEvent(c, rule, subject, amount), debt)
  {
    EmitQuiet(s, a, c, PublicDraft(PolicyDecided, WORLD_ACTOR, c.world.time, Policy(rule, false, subject, amount)), debt);
  }

  lemma EnqueueKeeps(s: Setup, a: Anchor, c: Core, d: Delivery, orderHint: int, debt: Debt)
    requires Good(s, a, c, debt)
    ensures Good(s, a, Enqueue(s, c, d, orderHint), debt) && SameSettings(Enqueue(s, c, d, orderHint), c)
  {
    hide Good, ApplyFaults;
    if !Deliverable(s, c.world.dropped, d) {
      PolicyKeeps(s, a, c, "unknown_recipient", d.recipient, 0, debt);
      PolicyKeeps(s, a, c, "recipient_dropped_out", d.recipient, 0, debt);
      PolicyKeeps(s, a, c, "max_message_bytes", "bytes", Utf8Size(d.content), debt);
    } else {
      var item := Scheduled(s, c.world, d, orderHint);
      ApplyFaultsKeeps(s, a, c, item, |s.faults|, debt);
      var (c', o) := ApplyFaults(s, c, item, |s.faults|);
      if o.Some? {
        AcceptKeeps(s, a, c', o.value, Utf8Size(d.content), debt);
      }
    }
  }

  lemma {:induction false} EnqueueAllKeeps(s: Setup, a: Anchor, c: Core, ds: seq<Delivery>, orderHint: int, debt: Debt)
    requires Good(s, a, c, debt)
    ensures Good(s, a, EnqueueAll(s, c, ds, orderHint), debt) && SameSettings(EnqueueAll(s, c, ds, orderHint), c)
  {
    if |ds| > 0 {
      EnqueueAllKeeps(s, a, c, ds[..|ds| - 1], orderHint, debt);
      EnqueueKeeps(s, a, EnqueueAll(s, c, ds[..|ds| - 1], orderHint), ds[|ds| - 1], orderHint, debt);
    }
  }

  // ---- the other operations of World ----

  lemma LaterKeeps(s: Setup, a: Anchor, c: Core, time: int, debt: Debt)
    requires Good(s, a, c, debt) && time > c.world.time
    ensures Good(s, a, c.(world := c.world.(time := time)), debt)
  {
  }

  lemma AdvanceKeeps(s: Setup, a: Anchor, c: Core, time: int, debt: Debt)
    requires Good(s, a, c, debt)
    ensures Good(s, a, AdvanceTo(c, time), debt)
  {
    hide Good;
    if time > c.world.time {
      var c1 := c.(world := c.world.(time := time));
      LaterKeeps(s, a, c, time, debt);
      EmitQuiet(s, a, c1, PublicDraft(ClockAdvanced, WORLD_ACTOR, time, Clock(time)), debt);
    }
  }

  lemma PopBooks(s: Setup, time: int, queue: seq<Item>, counted: int, l: Ledger, dropped: set<Agent>, batch: seq<Item>)
    requires Stocked(queue, counted, l.posted, l.popped, l.removed) && Taken(l.handed, batch, l.popped)
    requires WellAddressed(s, dropped, queue) && Delayed(s, time, l.posted, batch)
    ensures var due, rest := Popped(s.digest, queue, time), Remaining(queue, time);
      && Stocked(rest, counted, l.posted, l.popped + due, l.removed) && Taken(l.handed, due + batch, l.popped + due)
      && WellAddressed(s, dropped, rest) && Delayed(s, time, l.posted, due + batch)
  {
    PopDueConserves(s.digest, queue, time);
  }

  lemma PopKeeps(s: Setup, a: Anchor, c: Core, debt: Debt)
    requires Good(s, a, c, debt)
    ensures var (c', due) := PopDue(s, c); Good(s, a, c', debt.(batch := due + debt.batch))
  {
    hide Mirrors, NotAhead, WellAddressed, Stocked, Taken, Delayed, Matched, Budgeted, Tallied, PhaseOf, Synced, Durable;
    PopBooks(s, c.world.time, c.world.queue, c.world.counters.messages + c.world.counters.duplicates, c.ledger,
             c.world.dropped, debt.batch);
  }

  lemma RemovalStocked(queue: seq<Item>, counted: int, posted: seq<Posted>, popped: seq<Item>, removed: seq<Item>, agent: Agent)
    requires Stocked(queue, counted, posted, popped, removed)
    ensures Stocked(Filter(queue, NotFor(agent)), counted, posted, popped, removed + Filter(queue, For(agent)))
  {
    FilterPartition(queue, For(agent), NotFor(agent));
  }

  lemma RemovalAddressed(s: Setup, dropped: set<Agent>, queue: seq<Item>, agent: Agent)
    requires WellAddressed(s, dropped, queue)
    ensures WellAddressed(s, dropped + {agent}, Filter(queue, NotFor(agent)))
  {
    FilterElements(queue, NotFor(agent));
  }

  lemma RemovalKeeps(s: Setup, a: Anchor, c: Core, agent: Agent, debt: Debt)
    requires Good(s, a, c, debt)
    ensures Good(s, a, c.(
      world := c.world.(dropped := c.world.dropped + {agent}, queue := Filter(c.world.queue, NotFor(agent))),
      ledger := c.ledger.(removed := c.ledger.removed + Filter(c.world.queue, For(agent)))), debt)
  {
    hide Mirrors, NotAhead, WellAddressed, Stocked, Taken, Delayed, Matched, Budgeted, Tallied, PhaseOf, Synced, Durable;
    var w, l := c.world, c.ledger;
    RemovalStocked(w.queue, w.counters.messages + w.counters.duplicates, l.posted, l.popped, l.removed, agent);
    RemovalAddressed(s, w.dropped, w.queue, agent);
  }

  lemma DropOutKeeps(s: Setup, a: Anchor, c: Core, agent: Agent, debt: Debt)
    requires Good(s, a, c, debt)
    ensures Good(s, a, DropOut(c, agent), debt)
  {
    hide Good;
    RemovalKeeps(s, a, c, agent, debt);
    var gone := Filter(c.world.queue, For(agent));
    var c1 := c.(world := c.world.(dropped := c.world.dropped + {agent}, queue := Filter(c.world.queue, NotFor(agent))),
                 ledger := c.ledger.(removed := c.ledger.removed + gone));
    PolicyKeeps(s, a, c1, "agent_dropout", agent, |gone|, debt);
  }

  lemma RouteKeeps(s: Setup, a: Anchor, c: Core, p: Proposal, debt: Debt)
    requires Good(s, a, c, debt)
    ensures Good(s, a, Route(s, c, p).0, debt) && Route(s, c, p).0.world == c.world
  {
    PolicyKeeps(s, a, c, "broadcast_not_allowed", p.actor, 0, debt);
  }

  lemma UpdateKeeps(s: Setup, a: Anchor, c: Core, updates: Facts, facts: map<Agent, Facts>, debt: Debt)
    requires Good(s, a, c, debt) && debt.updates == map[]
    ensures Good(s, a, c.(world := c.world.(state := c.world.state + updates, privateFacts := facts)), debt.(updates := updates))
  {
    var was := s.initialState + PlaybackState(c.Events());
    assert was + map[] == was;
  }

  lemma FinishKeeps(s: Setup, a: Anchor, c: Core, reason: string, debt: Debt)
    requires Good(s, a, c, debt)
    ensures Good(s, a, c.(world := c.world.(finished := true, finishReason := reason)), debt)
  {
  }

  lemma ApplyChangeKeeps(s: Setup, a: Anchor, c: Core, action: Action, change: Change, debt: Debt)
    requires Good(s, a, c, debt) && debt.updates == map[]
    ensures Good(s, a, ApplyChange(s, c, action, change), debt)
  {
    hide Good, EnqueueAll, Emit, GrantFacts;
    if change.rejected != "" {
      PolicyKeeps(s, a, c, "action_rejected", change.rejected, 0, debt);
    } else {
      var facts := GrantFacts(c.world.privateFacts, change.factsTo);
      var owing := debt.(updates := change.updates);
      UpdateKeeps(s, a, c, change.updates, facts, debt);
      var c1 := c.(world := c.world.(state := c.world.state + change.updates, privateFacts := facts));
      EnqueueAllKeeps(s, a, c1, change.messages, 0, owing);
      var c2 := EnqueueAll(s, c1, change.messages, 0);
      var reason := if change.note != "" then change.note else "action:" + action.kind;
      FinishKeeps(s, a, c2, reason, owing);
      var c3 := if change.finished then c2.(world := c2.world.(finished := true, finishReason := reason)) else c2;
      EmitChanged(s, a, c3, ChangedDraft(action, change, c3.world.time), owing);
      assert owing.(updates := map[]) == debt;
    }
  }
}
