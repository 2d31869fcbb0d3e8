/** Environment sessions that have done the same work, whatever they spent on it and whatever the
    agents remember of it: they go on to do the same work as long as the agents answer alike. */
module Kinship {
  import opened Wrappers
  import opened Contracts
  import opened KernelState
  import opened Sorting
  import opened Scheduler
  import opened Journals
  import opened WorldRules
  import opened DriverRules
  import opened Growth
  import opened Equivalence
  import opened Resumption
  import opened EnvResumption

  // ---- resources are only ever added to ----

  function Minus(r: ResourceDelta): ResourceDelta {
    ResourceDelta(-r.modelCalls, -r.inputTokens, -r.outputTokens, -r.toolCalls, -r.costUsd, -r.wallSeconds, -r.messageBytes)
  }

  lemma PlusLaws(a: ResourceDelta, b: ResourceDelta, c: ResourceDelta)
    ensures a.Plus(b).Plus(c) == a.Plus(b.Plus(c)) && a.Plus(b) == b.Plus(a)
    ensures a.Plus(NoResources) == a && a.Plus(Minus(a)) == NoResources
  {
  }

  lemma PlusCancels(a: ResourceDelta, b: ResourceDelta)
    ensures a.Plus(b) == a <==> b == NoResources
    ensures a.Plus(Minus(b)) == NoResources <==> a == b
  {
  }

  function Spend(c: Core, r: ResourceDelta): Core {
    c.(world := c.world.(resources := c.world.resources.Plus(r)))
  }

  lemma SpendTwice(c: Core, a: ResourceDelta, b: ResourceDelta)
    ensures Spend(Spend(c, a), b) == Spend(c, a.Plus(b))
  {
    PlusLaws(c.world.resources, a, b);
  }

  lemma SpendAndBack(c: Core, r: ResourceDelta)
    ensures Spend(Spend(c, r), Minus(r)) == c && Spend(c, NoResources) == c
  {
    PlusLaws(c.world.resources, r, Minus(r));
    PlusLaws(r, r, r);
    PlusLaws(c.world.resources, r, r);
  }

  lemma SpendFires(s: Setup, c: Core, r: ResourceDelta, index: nat)
    requires index < |s.faults|
    ensures FaultFires(s, Spend(c, r), index) == (Spend(FaultFires(s, c, index).0, r), FaultFires(s, c, index).1)
  {
    hide ResourceDelta.Plus;
  }

  /** What a fault that fires leaves, and what becomes of the item. */
  function Fired(s: Setup, c: Core, index: nat, item: Item): (Core, Option<Item>)
    requires index < |s.faults|
  {
    var fault := s.faults[index];
    var c2 := Emit(c.(ledger := c.ledger.(fired := Bump(c.ledger.fired, index))), FaultDraft(fault.kind, c.world.time, item.delivery));
    match fault.kind
    case DropMessage => (c2, None)
    case DuplicateMessage =>
      var c3 := Post(c2, item.(duplicate := 1));
      (c3.(world := c3.world.(counters := c3.world.counters.(duplicates := c3.world.counters.duplicates + 1))), Some(item))
    case _ => (c2, Some(Transform(fault, item)))
  }

  lemma SpendEmit(c: Core, r: ResourceDelta, d: Draft)
    ensures Emit(Spend(c, r), d) == Spend(Emit(c, d), r)
  {
    hide ResourceDelta.Plus;
  }

  lemma SpendPost(c: Core, r: ResourceDelta, item: Item)
    ensures Post(Spend(c, r), item) == Spend(Post(c, item), r)
  {
    hide ResourceDelta.Plus;
  }

  lemma SpendFired(s: Setup, c: Core, r: ResourceDelta, index: nat, item: Item)
    requires index < |s.faults|
    ensures Fired(s, Spend(c, r), index, item) == (Spend(Fired(s, c, index, item).0, r), Fired(s, c, index, item).1)
  {
    hide Transform, Bump, ResourceDelta.Plus, Emit, Post;
    var c1 := c.(ledger := c.ledger.(fired := Bump(c.ledger.fired, index)));
    var d := FaultDraft(s.faults[index].kind, c.world.time, item.delivery);
    SpendEmit(c1, r, d);
    SpendPost(Emit(c1, d), r, item.(duplicate := 1));
  }

  lemma SpendApplyFault(s: Setup, c: Core, r: ResourceDelta, index: nat, item: Item)
    requires index < |s.faults|
    ensures ApplyFault(s, Spend(c, r), index, item) == (Spend(ApplyFault(s, c, index, item).0, r), ApplyFault(s, c, index, item).1)
  {
    SpendFires(s, c, r, index);
    var (c1, fires) := FaultFires(s, c, index);
    SpendFired(s, c1, r, index, item);
    FaultIsFired(s, c, index, item);
    FaultIsFired(s, Spend(c, r), index, item);
    hide ApplyFault, Fired, FaultFires, AppliesTo, Spend;
  }

  lemma FaultIsFired(s: Setup, c: Core, index: nat, item: Item)
    requires index < |s.faults|
    ensures ApplyFault(s, c, index, item) ==
      if !AppliesTo(s.faults[index], item.delivery) then (c, Some(item))
      else
        var (c1, fires) := FaultFires(s, c, index);
        if fires then Fired(s, c1, index, item) else (c1, Some(item))
  {
    hide FaultFires, AppliesTo, Transform, Bump;
  }

  lemma {:induction false} SpendApplyFaults(s: Setup, c: Core, r: ResourceDelta, item: Item, count: nat)
    requires count <= |s.faults|
    ensures ApplyFaults(s, Spend(c, r), item, count) == (Spend(ApplyFaults(s, c, item, count).0, r), ApplyFaults(s, c, item, count).1)
  {
    hide ApplyFault, Spend;
    if count > 0 {
      SpendApplyFaults(s, c, r, item, count - 1);
      var (c', o) := ApplyFaults(s, c, item, count - 1);
      match o {
        case None =>
        case Some(i) => SpendApplyFault(s, c', r, count - 1, i);
      }
    }
  }

  lemma SpendAccept(c: Core, r: ResourceDelta, item: Item, size: nat)
    ensures Accept(Spend(c, r), item, size) == Spend(Accept(c, item, size), r)
  {
    var b := NoResources.(messageBytes := size);
    PlusLaws(c.world.resources, r, b);
    PlusLaws(c.world.resources, b, r);
    PlusLaws(r, b, r);
    hide ResourceDelta.Plus;
  }

  lemma SpendEnqueue(s: Setup, c: Core, r: ResourceDelta, d: Delivery, orderHint: int)
    ensures Enqueue(s, Spend(c, r), d, orderHint) == Spend(Enqueue(s, c, d, orderHint), r)
  {
    hide ApplyFaults, Accept, ResourceDelta.Plus, Utf8Size;
    SpendApplyFaults(s, c, r, Scheduled(s, c.world, d, orderHint), |s.faults|);
    match ApplyFaults(s, c, Scheduled(s, c.world, d, orderHint), |s.faults|) {
      case (c', None) =>
      case (c', Some(item)) => SpendAccept(c', r, item, Utf8Size(d.content));
    }
  }

  lemma {:induction false} SpendEnqueueAll(s: Setup, c: Core, r: ResourceDelta, ds: seq<Delivery>, orderHint: int)
    ensures EnqueueAll(s, Spend(c, r), ds, orderHint) == Spend(EnqueueAll(s, c, ds, orderHint), r)
  {
    hide Enqueue, Spend;
    if |ds| > 0 {
      SpendEnqueueAll(s, c, r, ds[..|ds| - 1], orderHint);
      SpendEnqueue(s, EnqueueAll(s, c, ds[..|ds| - 1], orderHint), r, ds[|ds| - 1], orderHint);
    }
  }

  lemma SpendApplyChange(s: Setup, c: Core, r: ResourceDelta, action: Action, change: Change)
    ensures ApplyChange(s, Spend(c, r), action, change) == Spend(ApplyChange(s, c, action, change), r)
  {
    hide EnqueueAll, GrantFacts, ResourceDelta.Plus;
    var c1 := c.(world := c.world.(
      state := c.world.state + change.updates,
      privateFacts := GrantFacts(c.world.privateFacts, change.factsTo)));
    SpendEnqueueAll(s, c1, r, change.messages, 0);
  }

  /** No rule of an action looks at what was spent so far. */
  lemma SpendTakeAction(s: Setup, c: Core, r: ResourceDelta, action: Action, delta: ResourceDelta)
    ensures TakeAction(s, Spend(c, r), action, delta) == Spend(TakeAction(s, c, action, delta), r)
  {
    hide ApplyChange, ResourceDelta.Plus;
    var c1 := Emit(c, PublicDraft(ActionTaken, action.actor, c.world.time, Acted(action.kind, action.args)).(delta := delta));
    match s.handle(action, ViewOf(s, c1.world)) {
      case None =>
      case Some(change) => SpendApplyChange(s, c1, r, action, change);
    }
  }

  lemma SpendAdvance(c: Core, r: ResourceDelta, time: int)
    ensures AdvanceTo(Spend(c, r), time) == Spend(AdvanceTo(c, time), r)
  {
  }

  // ---- akin ----

  /** The same work, world and random streams, but for `r` spent in addition. */
  ghost predicate Akin(s: Setup, x: Session, y: Session, r: ResourceDelta) {
    Like(s, Spend(x.core, r), y.core, y.core.journal.sequence - x.core.journal.sequence)
  }

  lemma LikeBack(s: Setup, c: Core, c': Core, k: int)
    requires Like(s, c, c', k)
    ensures Like(s, c', c, -k)
  {
    hide Canon, Deeds;
  }

  lemma LikeOn(s: Setup, a: Core, b: Core, c: Core, k: int, n: int)
    requires Like(s, a, b, k) && Like(s, b, c, n)
    ensures Like(s, a, c, k + n)
  {
    hide Canon, Deeds;
  }

  lemma SpendLike(s: Setup, c: Core, c': Core, k: int, r: ResourceDelta)
    requires Like(s, c, c', k)
    ensures Like(s, Spend(c, r), Spend(c', r), k)
  {
    hide Canon, Deeds, ResourceDelta.Plus;
  }

  lemma AkinOn(s: Setup, x: Session, y: Session, z: Session, r: ResourceDelta, q: ResourceDelta)
    requires Akin(s, x, y, r) && Akin(s, y, z, q)
    ensures Akin(s, x, z, r.Plus(q))
  {
    var k, n := y.core.journal.sequence - x.core.journal.sequence, z.core.journal.sequence - y.core.journal.sequence;
    hide Like, Spend;
    SpendLike(s, Spend(x.core, r), y.core, k, q);
    SpendTwice(x.core, r, q);
    LikeOn(s, Spend(x.core, r.Plus(q)), Spend(y.core, q), z.core, k, n);
  }

  lemma AkinBack(s: Setup, x: Session, y: Session, r: ResourceDelta)
    requires Akin(s, x, y, r)
    ensures Akin(s, y, x, Minus(r))
  {
    var k := y.core.journal.sequence - x.core.journal.sequence;
    hide Like, Spend;
    SpendLike(s, Spend(x.core, r), y.core, k, Minus(r));
    SpendAndBack(x.core, r);
    LikeBack(s, x.core, Spend(y.core, Minus(r)), k);
  }

  lemma AlikeIsAkin(s: Setup, x: Session, y: Session)
    ensures EnvAlike(s, x, y) <==> Akin(s, x, y, NoResources) && y.memos == x.memos
  {
    SpendAndBack(x.core, NoResources);
    hide Like, Spend;
  }

  lemma AkinAside(s: Setup, x: Session, y: Session)
    requires y.core == x.core
    ensures Akin(s, x, y, NoResources)
  {
    SpendAndBack(x.core, NoResources);
    hide Canon, Deeds, Spend;
  }

  lemma AkinCharge(s: Setup, x: Session, em: Emission)
    ensures Akin(s, x, x.(core := EnvCharge(x.core, em)), em.delta)
  {
    hide Canon, Deeds, ResourceDelta.Plus;
  }

  lemma AkinWorld(s: Setup, x: Session, y: Session, r: ResourceDelta)
    requires Akin(s, x, y, r)
    ensures y.core.world == x.core.world.(queue := y.core.world.queue, resources := x.core.world.resources.Plus(r))
    ensures y.core.rng == x.core.rng && Deeds(y.core.Events()) == Deeds(x.core.Events())
    ensures Canon(s.digest, y.core.world.queue) == Canon(s.digest, x.core.world.queue)
  {
  }

  lemma AkinThen(s: Setup, x: Session, y: Session, z: Session, r: ResourceDelta)
    requires Akin(s, x, y, r) && EnvAlike(s, y, z)
    ensures Akin(s, x, z, r)
  {
    AlikeIsAkin(s, y, z);
    hide EnvAlike, Akin, ResourceDelta.Plus;
    AkinOn(s, x, y, z, r, NoResources);
    PlusLaws(r, r, r);
  }

  lemma AkinFrom(s: Setup, x: Session, y: Session, z: Session, r: ResourceDelta)
    requires EnvAlike(s, x, y) && Akin(s, x, z, r)
    ensures Akin(s, y, z, r)
  {
    EnvAlikeBack(s, x, y);
    AlikeIsAkin(s, y, x);
    PlusLaws(NoResources, r, r);
    PlusLaws(r, r, r);
    hide EnvAlike, Akin, ResourceDelta.Plus;
    AkinOn(s, y, x, z, NoResources, r);
  }

  lemma AkinCheckpoint(s: Setup, m: Minds, m': Minds, x: Session, y: Session, r: ResourceDelta)
    requires Akin(s, x, y, r)
    ensures Akin(s, MaybeCheckpoint(s, m, x), MaybeCheckpoint(s, m', y), r)
  {
    hide MaybeCheckpoint, Akin, EnvAlike;
    CheckpointAside(s, m, x);
    CheckpointAside(s, m', y);
    AkinThen(s, x, y, MaybeCheckpoint(s, m', y), r);
    AkinFrom(s, x, MaybeCheckpoint(s, m, x), MaybeCheckpoint(s, m', y), r);
  }

  lemma AkinAction(s: Setup, x: Session, y: Session, r: ResourceDelta, action: Action)
    requires Akin(s, x, y, r)
    ensures Akin(s, x.(core := TakeAction(s, x.core, action, NoResources)), y.(core := TakeAction(s, y.core, action, NoResources)), r)
  {
    hide Like, TakeAction, Spend;
    var k := y.core.journal.sequence - x.core.journal.sequence;
    var u, v := TakeAction(s, x.core, action, NoResources), TakeAction(s, y.core, action, NoResources);
    TakeActionLike(s, Spend(x.core, r), y.core, k, action, NoResources);
    SpendTakeAction(s, x.core, r, action, NoResources);
    SpendSequence(u, r);
    LikeGap(s, Spend(u, r), v, k);
  }

  lemma AkinCommit(s: Setup, m: Minds, m': Minds, x: Session, y: Session, r: ResourceDelta, action: Action)
    requires Akin(s, x, y, r)
    ensures Akin(s, EnvCommit(s, m, x, action), EnvCommit(s, m', y, action), r)
  {
    hide Akin, TakeAction, MaybeCheckpoint;
    AkinAction(s, x, y, r, action);
    AkinCheckpoint(s, m, m', x.(core := TakeAction(s, x.core, action, NoResources)), y.(core := TakeAction(s, y.core, action, NoResources)), r);
  }

  lemma SpendSequence(c: Core, r: ResourceDelta)
    ensures Spend(c, r).journal == c.journal
  {
  }

  lemma AkinEnd(s: Setup, x: Session, y: Session, r: ResourceDelta)
    requires Akin(s, x, y, r)
    ensures Akin(s, EndRound(s, x), EndRound(s, y), r)
  {
    var k := y.core.journal.sequence - x.core.journal.sequence;
    AkinWorld(s, x, y, r);
    hide Like, Spend, AdvanceTo;
    var time := x.core.world.time + s.clockStep;
    AdvanceLike(s, Spend(x.core, r), y.core, k, time);
    SpendAdvance(x.core, r, time);
    var u, v := EndRound(s, x).core, EndRound(s, y).core;
    assert Like(s, Spend(u, r), v, k);
    SpendSequence(u, r);
    LikeGap(s, Spend(u, r), v, k);
  }
}
