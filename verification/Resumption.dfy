/** Resuming against never having been interrupted: exactly when a resumed attempt does the
    work the uninterrupted one does. */
module Resumption {
  import opened Wrappers
  import opened Contracts
  import opened KernelState
  import opened Sorting
  import opened Scheduler
  import opened Store
  import opened Journals
  import opened WorldRules
  import opened DriverRules
  import opened RunRules
  import opened DriverInvariants
  import opened Recovery
  import opened Punctuality
  import opened Growth
  import opened Equivalence

  // ---- the end of a round against a fresh start at the same time ----

  /** The same work done, and the same state, except that the clocks may stand at different times. */
  ghost predicate SameWork(s: Setup, u: Session, v: Session) {
    && Deeds(v.core.Events()) == Deeds(u.core.Events())
    && v.core.rng == u.core.rng
    && v.core.world == u.core.world.(time := v.core.world.time, queue := v.core.world.queue)
    && Canon(s.digest, v.core.world.queue) == Canon(s.digest, u.core.world.queue)
    && v.driver.invocations == u.driver.invocations && v.driver.activated == u.driver.activated
    && v.memos == u.memos
  }

  lemma AlikeIsSameWork(s: Setup, u: Session, v: Session, k: int)
    requires InStep(s, u, v, k)
    ensures SameWork(s, u, v)
  {
    hide Deeds, Canon;
  }

  lemma EndRoundIsSameWork(s: Setup, x: Session, y: Session, k: int)
    requires InStep(s, x, y, k)
    ensures SameWork(s, EndRound(s, x), y)
  {
    hide Deeds, Canon;
    var time := x.core.world.time + s.clockStep;
    DeedsSnoc(x.core.Events(), Stamp(x.core.journal.attempt, x.core.journal.sequence, x.core.journal.index,
                                     PublicDraft(ClockAdvanced, WORLD_ACTOR, time, Clock(time))));
  }

  lemma PopNothing(s: Setup, c: Core)
    requires Pending(c.world)
    ensures PopDue(s, c) == (c, [])
  {
    FilterNone(c.world.queue, DueBy(c.world.time));
    FilterAll(c.world.queue, DueAfter(c.world.time));
    assert Popped(s.digest, c.world.queue, c.world.time) == [];
    assert c.ledger.popped + [] == c.ledger.popped;
  }

  /** With nothing due the loop goes straight to the next due time. */
  lemma SkipAhead(s: Setup, m: Minds, x: Session)
    requires Pending(x.core.world) && !x.core.world.finished && LimitHit(s, x.core).None?
    ensures SessionLoop(s, m, x) ==
      match NextDue(x.core.world.queue)
      case None => (x, Outcome(false, "quiescent", None))
      case Some(next) =>
        if next > s.limits.maxLogicalTime then (x, Stopped(MaxLogicalTime))
        else SessionLoop(s, m, x.(core := AdvanceTo(x.core, next)))
  {
    hide PopDue, LimitHit, RunBatch, EndRound, NextDue, AdvanceTo;
    PopNothing(s, x.core);
    assert x.(core := x.core) == x;
  }

  lemma {:induction false} NextDueIsLeast(items: seq<Item>, next: int)
    requires NextDue(items) == Some(next)
    ensures forall i :: i in items ==> i.due >= next
  {
    var front, last := items[..|items| - 1], items[|items| - 1];
    assert items == front + [last];
    if NextDue(front).Some? {
      NextDueIsLeast(front, NextDue(front).value);
    } else {
      assert front == [];
    }
  }

  /** A limit that ends the run as blocked. */
  predicate Blocked(s: Setup, w: WorldState) {
    || w.counters.messages > s.limits.maxMessages
    || w.counters.modelCalls > s.limits.maxModelCalls
    || w.resources.costUsd > s.limits.maxCostUsd
  }

  /** The one case in which stopping between two rounds shows in the outcome: the round was the
      last one the clock allows, and there is a reason to stop that the clock forestalls. */
  predicate LastTick(s: Setup, w: WorldState) {
    && !w.finished && w.time <= s.limits.maxLogicalTime < w.time + s.clockStep
    && (Blocked(s, w) || w.queue == [])
  }

  /** Nothing is left to do, or nothing falls due before the next round would have begun. */
  predicate Seamless(s: Setup, w: WorldState) {
    || w.finished
    || Blocked(s, w)
    || forall i :: i in w.queue ==> i.due >= w.time + s.clockStep || i.due > s.limits.maxLogicalTime
  }

  /** After a round, against a loop entered at the round's own time: both limits and clock leave room. */
  lemma CatchUpAhead(s: Setup, m: Minds, m': Minds, x: Session, y: Session, k: nat)
    requires InStep(s, x, y, k) && SameMinds(m, m') && s.clockStep >= 1 && Seamless(s, x.core.world)
    requires Pending(x.core.world) && !x.core.world.finished && LimitHit(s, EndRound(s, x).core).None?
    requires k > 0 && SessionLoop(s, m, EndRound(s, x)).0.core.journal.sequence + k < s.limits.maxEvents
    ensures SameWork(s, SessionLoop(s, m, EndRound(s, x)).0, SessionLoop(s, m', y).0)
    ensures SessionLoop(s, m, EndRound(s, x)).1 == SessionLoop(s, m', y).1
  {
    var x1 := EndRound(s, x);
    hide InStep, SameMinds, SameWork, SessionLoop, Canon, Emit, EndRound, LimitHit, Seamless;
    TickEffect(s, x);
    LoopGrows(s, m, x1);
    AlikeWorld(s, x, y, k);
    NotYetLimited(s, x, y, k);
    AlikeQueues(s, x, y, k);
    SameCanonSameNext(s.digest, x.core.world.queue, y.core.world.queue);
    PendingAlike(s, x, y, k);
    SkipAhead(s, m', y);
    EndRoundIsSameWork(s, x, y, k);
    match NextDue(x.core.world.queue) {
      case None =>
        NextDueIsFirst(s.digest, x.core.world.queue);
        SkipAhead(s, m, x1);
      case Some(next) =>
        NextDueIsLeast(x.core.world.queue, next);
        SeamlessNext(s, x, next);
        if next == x1.core.world.time {
          Together(s, m, m', x, y, k, next);
        } else {
          assert Pending(x1.core.world);
          SkipAhead(s, m, x1);
          if next <= s.limits.maxLogicalTime {
            FurtherOn(s, m, m', x, y, k, next);
          }
        }
    }
  }

  lemma SeamlessNext(s: Setup, x: Session, next: int)
    requires Seamless(s, x.core.world) && !x.core.world.finished && LimitHit(s, EndRound(s, x).core).None?
    requires s.clockStep >= 1 && NextDue(x.core.world.queue) == Some(next)
    ensures next >= x.core.world.time + s.clockStep
  {
    TickEffect(s, x);
    hide EndRound;
    NextDueIsMet(x.core.world.queue, next);
  }

  lemma {:induction false} NextDueIsMet(items: seq<Item>, next: int)
    requires NextDue(items) == Some(next)
    ensures exists i :: i in items && i.due == next
  {
    var front, last := items[..|items| - 1], items[|items| - 1];
    assert items == front + [last];
    if last.due == next {
      assert last in items;
    } else {
      NextDueIsMet(front, next);
      var i :| i in front && i.due == next;
      assert i in items;
    }
  }

  lemma TickEffect(s: Setup, x: Session)
    requires s.clockStep >= 1
    ensures EndRound(s, x).core.world == x.core.world.(time := x.core.world.time + s.clockStep)
    ensures EndRound(s, x).core.journal.sequence == x.core.journal.sequence + 1
  {
  }

  lemma NotYetLimited(s: Setup, x: Session, y: Session, k: int)
    requires InStep(s, x, y, k) && s.clockStep >= 1 && LimitHit(s, EndRound(s, x).core).None?
    requires y.core.journal.sequence < s.limits.maxEvents
    ensures LimitHit(s, y.core).None? && !Blocked(s, x.core.world)
    ensures x.core.world.time + s.clockStep <= s.limits.maxLogicalTime
  {
    AlikeWorld(s, x, y, k);
    TickEffect(s, x);
    hide InStep, EndRound;
  }

  lemma PendingAlike(s: Setup, x: Session, y: Session, k: int)
    requires InStep(s, x, y, k) && Pending(x.core.world)
    ensures Pending(y.core.world)
  {
    SameItems(s, x, y, k);
  }

  lemma SameItems(s: Setup, x: Session, y: Session, k: int)
    requires InStep(s, x, y, k)
    ensures forall i :: i in y.core.world.queue <==> i in x.core.world.queue
  {
    var a, b := x.core.world.queue, y.core.world.queue;
    SortKeepsElements(a, ItemOrder(s.digest));
    SortKeepsElements(b, ItemOrder(s.digest));
    assert multiset(a) == multiset(b);
    forall i ensures i in a <==> i in b {
      assert i in a <==> i in multiset(a);
      assert i in b <==> i in multiset(b);
    }
  }

  /** The next delivery is due when the next round begins. */
  lemma Together(s: Setup, m: Minds, m': Minds, x: Session, y: Session, k: nat, next: int)
    requires InStep(s, x, y, k) && SameMinds(m, m') && s.clockStep >= 1 && next == x.core.world.time + s.clockStep
    requires SessionLoop(s, m, EndRound(s, x)).0.core.journal.sequence + k < s.limits.maxEvents
    ensures var v := SessionLoop(s, m', y.(core := AdvanceTo(y.core, next)));
      SameWork(s, SessionLoop(s, m, EndRound(s, x)).0, v.0) && SessionLoop(s, m, EndRound(s, x)).1 == v.1
  {
    hide Like, SameMinds, SameWork, SessionLoop, AdvanceTo;
    AlikeWorld(s, x, y, k);
    SkipAlike(s, x, y, k, next);
    var x1, y1 := EndRound(s, x), y.(core := AdvanceTo(y.core, next));
    assert InStep(s, x1, y1, k);
    LoopAlike(s, m, m', x1, y1, k);
    AlikeIsSameWork(s, SessionLoop(s, m, x1).0, SessionLoop(s, m', y1).0, k);
  }

  /** The next delivery is due later: the uninterrupted run has logged one more event, of the clock. */
  lemma FurtherOn(s: Setup, m: Minds, m': Minds, x: Session, y: Session, k: nat, next: int)
    requires InStep(s, x, y, k) && SameMinds(m, m') && s.clockStep >= 1 && next > x.core.world.time + s.clockStep && k > 0
    requires var x2 := EndRound(s, x).(core := AdvanceTo(EndRound(s, x).core, next));
      SessionLoop(s, m, x2).0.core.journal.sequence + k < s.limits.maxEvents
    ensures var u := SessionLoop(s, m, EndRound(s, x).(core := AdvanceTo(EndRound(s, x).core, next)));
      var v := SessionLoop(s, m', y.(core := AdvanceTo(y.core, next)));
      SameWork(s, u.0, v.0) && u.1 == v.1
  {
    hide InStep, SameMinds, SameWork, SessionLoop, AdvanceTo, EndRound;
    TwoTicksAlike(s, x, y, k, next);
    var x1 := EndRound(s, x);
    var x2, y2 := x1.(core := AdvanceTo(x1.core, next)), y.(core := AdvanceTo(y.core, next));
    LoopAlike(s, m, m', x2, y2, k - 1);
    AlikeIsSameWork(s, SessionLoop(s, m, x2).0, SessionLoop(s, m', y2).0, k - 1);
  }

  lemma TwoTicksAlike(s: Setup, x: Session, y: Session, k: int, next: int)
    requires InStep(s, x, y, k) && s.clockStep >= 1 && next > x.core.world.time + s.clockStep
    ensures InStep(s, EndRound(s, x).(core := AdvanceTo(EndRound(s, x).core, next)), y.(core := AdvanceTo(y.core, next)), k - 1)
  {
    hide Like, AdvanceTo;
    TwoTicks(s, x.core, y.core, k, x.core.world.time + s.clockStep, next);
  }

  lemma TwoTicks(s: Setup, c: Core, c': Core, k: int, between: int, next: int)
    requires Like(s, c, c', k) && c.world.time < between < next
    ensures Like(s, AdvanceTo(AdvanceTo(c, between), next), AdvanceTo(c', next), k - 1)
  {
    hide Deeds, Canon;
    var tick := PublicDraft(ClockAdvanced, WORLD_ACTOR, between, Clock(between));
    var skip := PublicDraft(ClockAdvanced, WORLD_ACTOR, next, Clock(next));
    var c1 := AdvanceTo(c, between);
    DeedsSnoc(c.Events(), Stamp(c.journal.attempt, c.journal.sequence, c.journal.index, tick));
    DeedsSnoc(c1.Events(), Stamp(c1.journal.attempt, c1.journal.sequence, c1.journal.index, skip));
    DeedsSnoc(c'.Events(), Stamp(c'.journal.attempt, c'.journal.sequence, c'.journal.index, skip));
  }

  /** A loop entered right after a round, at the round's own time, does the work of the loop
      that goes on; the reported outcome is the same too, except at the last tick. */
  lemma CatchUp(s: Setup, m: Minds, m': Minds, x: Session, y: Session, k: nat)
    requires InStep(s, x, y, k) && SameMinds(m, m') && k > 0
    requires Pending(x.core.world) && Seamless(s, x.core.world)
    requires SessionLoop(s, m, EndRound(s, x)).0.core.journal.sequence + k < s.limits.maxEvents
    ensures var (u, o), (v, o') := SessionLoop(s, m, EndRound(s, x)), SessionLoop(s, m', y);
      SameWork(s, u, v) && (o' == o <==> !LastTick(s, x.core.world))
  {
    var x1 := EndRound(s, x);
    if s.clockStep <= 0 {
      assert InStep(s, x1, y, k);
      hide InStep, SameMinds, SameWork, SessionLoop, EndRound;
      LoopAlike(s, m, m', x1, y, k);
      AlikeIsSameWork(s, SessionLoop(s, m, x1).0, SessionLoop(s, m', y).0, k);
    } else {
      TickEffect(s, x);
      hide InStep, SameMinds, SameWork, EndRound, PopDue, RunBatch, NextDue, Canon, Seamless;
      LoopGrows(s, m, x1);
      AlikeWorld(s, x, y, k);
      EndRoundIsSameWork(s, x, y, k);
      if x.core.world.finished {
      } else if x1.core.world.time > s.limits.maxLogicalTime {
        LastTickOutcome(s, m', x, y, k);
      } else if LimitHit(s, x1.core).None? {
        CatchUpAhead(s, m, m', x, y, k);
      }
    }
  }

  lemma LastTickOutcome(s: Setup, m': Minds, x: Session, y: Session, k: nat)
    requires InStep(s, x, y, k) && Pending(x.core.world) && Seamless(s, x.core.world)
    requires !x.core.world.finished && x.core.world.time + s.clockStep > s.limits.maxLogicalTime
    requires y.core.journal.sequence < s.limits.maxEvents
    ensures SessionLoop(s, m', y).0 == y
    ensures SessionLoop(s, m', y).1 == Stopped(MaxLogicalTime) <==> !LastTick(s, x.core.world)
  {
    hide EndRound, PopDue, RunBatch, NextDue, Canon;
    AlikeWorld(s, x, y, k);
    AlikeQueues(s, x, y, k);
    SameCanonSameNext(s.digest, x.core.world.queue, y.core.world.queue);
    NextDueIsFirst(s.digest, x.core.world.queue);
    PendingAlike(s, x, y, k);
    if LimitHit(s, y.core).None? {
      SkipAhead(s, m', y);
      if NextDue(x.core.world.queue).Some? {
        NextDueIsMet(x.core.world.queue, NextDue(x.core.world.queue).value);
      }
    }
  }

  // ---- when the work is not the same ----

  /** What a log is continued with adds its deeds after those that were there. */
  lemma {:induction false} DeedsGrow(a: seq<Event>, b: seq<Event>, from: int)
    requires a <= b && forall i :: |a| <= i < |b| ==> from <= b[i].time
    ensures Deeds(a) <= Deeds(b)
    ensures forall j :: |Deeds(a)| <= j < |Deeds(b)| ==> from <= Deeds(b)[j].time
    decreases |b|
  {
    if a == b {
    } else {
      var front, last := b[..|b| - 1], b[|b| - 1];
      assert forall i :: |a| <= i < |front| ==> front[i] == b[i];
      DeedsGrow(a, front, from);
    }
  }

  lemma CoreDeedsGrow(c: Core, c': Core)
    requires Grows(c, c')
    ensures Deeds(c.Events()) <= Deeds(c'.Events())
    ensures forall j :: |Deeds(c.Events())| <= j < |Deeds(c'.Events())| ==> c.world.time <= Deeds(c'.Events())[j].time
  {
    DeedsGrow(c.Events(), c'.Events(), c.world.time);
  }

  /** A loop entered with nothing due works only at later times. */
  lemma OnlyLater(s: Setup, m: Minds, y: Session)
    requires Pending(y.core.world)
    ensures var log := SessionLoop(s, m, y).0.core.Events();
      && Deeds(y.core.Events()) <= Deeds(log)
      && forall j :: |Deeds(y.core.Events())| <= j < |Deeds(log)| ==> Deeds(log)[j].time > y.core.world.time
  {
    if !y.core.world.finished && LimitHit(s, y.core).None? {
      hide LimitHit, Pending, Deeds, NextDue, SessionLoop, AdvanceTo;
      SkipAhead(s, m, y);
      if NextDue(y.core.world.queue).Some? && NextDue(y.core.world.queue).value <= s.limits.maxLogicalTime {
        var next := NextDue(y.core.world.queue).value;
        PendingNext(y.core.world);
        LaterFrom(s, m, y, next);
      }
    }
  }

  lemma LaterFrom(s: Setup, m: Minds, y: Session, next: int)
    requires next > y.core.world.time
    ensures var log := SessionLoop(s, m, y.(core := AdvanceTo(y.core, next))).0.core.Events();
      && Deeds(y.core.Events()) <= Deeds(log)
      && forall j :: |Deeds(y.core.Events())| <= j < |Deeds(log)| ==> Deeds(log)[j].time > y.core.world.time
  {
    hide Deeds, SessionLoop;
    var y2 := y.(core := AdvanceTo(y.core, next));
    DeedsSnoc(y.core.Events(), Stamp(y.core.journal.attempt, y.core.journal.sequence, y.core.journal.index,
                                     PublicDraft(ClockAdvanced, WORLD_ACTOR, next, Clock(next))));
    LoopGrowsLog(s, m, y2);
    hide Grows;
    CoreDeedsGrow(y2.core, SessionLoop(s, m, y2).0.core);
  }

  lemma PendingNext(w: WorldState)
    requires Pending(w)
    ensures NextDue(w.queue).Some? ==> NextDue(w.queue).value > w.time
  {
    NextDueIsLater(w.queue, w.time);
  }

  /** Work of the round that was still to be done when the checkpoint was written is never
      done by the resumed attempt: it does not work at that logical time any more. */
  lemma RestOfRoundIsLost(s: Setup, m: Minds, m': Minds, x: Session, w: Session, y: Session, k: int)
    requires InStep(s, x, y, k) && Pending(x.core.world)
    requires Stays(x.core, w.core) && Deeds(w.core.Events()) != Deeds(x.core.Events())
    ensures Deeds(SessionLoop(s, m, EndRound(s, w)).0.core.Events()) != Deeds(SessionLoop(s, m', y).0.core.Events())
  {
    hide SessionLoop, Deeds, Canon, AdvanceTo, Pending;
    PendingAlike(s, x, y, k);
    OnlyLater(s, m', y);
    var w1 := EndRound(s, w);
    AdvanceGrows(w.core, w.core.world.time + s.clockStep);
    LoopGrowsLog(s, m, w1);
    GrowsOn(w.core, w1.core, SessionLoop(s, m, w1).0.core);
    CoreDeedsGrow(w.core, SessionLoop(s, m, w1).0.core);
    SameTimeDeeds(x.core, w.core);
    AlikeWorld(s, x, y, k);
    var n := |Deeds(x.core.Events())|;
    assert Deeds(y.core.Events()) == Deeds(x.core.Events());
    assert |Deeds(w.core.Events())| > n;
    assert Deeds(SessionLoop(s, m, w1).0.core.Events())[n] == Deeds(w.core.Events())[n];
  }

  /** What was added without moving the clock is dated now. */
  lemma SameTimeDeeds(c: Core, c': Core)
    requires Stays(c, c')
    ensures Deeds(c.Events()) <= Deeds(c'.Events())
    ensures forall j :: |Deeds(c.Events())| <= j < |Deeds(c'.Events())| ==> Deeds(c'.Events())[j].time == c.world.time
  {
    DeedsGrow(c.Events(), c'.Events(), c.world.time);
    DeedsUntil(c.Events(), c'.Events(), c.world.time);
  }

  lemma {:induction false} DeedsUntil(a: seq<Event>, b: seq<Event>, until: int)
    requires a <= b && forall i :: |a| <= i < |b| ==> b[i].time <= until
    ensures forall j :: |Deeds(a)| <= j < |Deeds(b)| ==> Deeds(b)[j].time <= until
    decreases |b|
  {
    if a == b {
    } else {
      var front, last := b[..|b| - 1], b[|b| - 1];
      assert forall i :: |a| <= i < |front| ==> front[i] == b[i];
      DeedsUntil(a, front, until);
    }
  }

  /** A loop with a delivery due now begins by handing it over, now. */
  lemma FirstDelivery(s: Setup, m: Minds, x: Session)
    requires !x.core.world.finished && LimitHit(s, x.core).None?
    requires PopDue(s, x.core).1 != [] && PopDue(s, x.core).1[0].delivery.recipient !in x.core.world.dropped
    ensures var was, log := x.core.Events(), SessionLoop(s, m, x).0.core.Events();
      |Deeds(log)| > |Deeds(was)| && Deeds(log)[|Deeds(was)|].time == x.core.world.time
  {
    hide LimitHit, Deeds, Popped, Remaining, DeliverAndInvoke, AdvanceTo;
    var (core, due) := PopDue(s, x.core);
    var popped := x.(core := core);
    var y := RunBatch(s, m, popped, due);
    FirstHand(s, m, popped, due);
    AdvanceGrows(y.core, y.core.world.time + s.clockStep);
    LoopGrowsLog(s, m, EndRound(s, y));
    GrowsOn(y.core, EndRound(s, y).core, SessionLoop(s, m, EndRound(s, y)).0.core);
    CoreDeedsGrow(y.core, SessionLoop(s, m, EndRound(s, y)).0.core);
  }

  lemma FirstHand(s: Setup, m: Minds, x: Session, items: seq<Item>)
    requires items != [] && items[0].delivery.recipient !in x.core.world.dropped
    ensures var was, log := x.core.Events(), RunBatch(s, m, x, items).core.Events();
      |Deeds(log)| > |Deeds(was)| && Deeds(log)[|Deeds(was)|].time == x.core.world.time
  {
    var item := items[0];
    var d := DeliveredDraft(item, x.core.world.time);
    DeedsSnoc(x.core.Events(), Stamp(x.core.journal.attempt, x.core.journal.sequence, x.core.journal.index, d));
    hide Deeds, DeliverAndInvoke, Stays;
    AfterHand(s, m, x, item);
    var y := DeliverAndInvoke(s, m, x, item);
    RunBatchStays(s, m, y, items[1..]);
    if !y.core.world.finished {
      StaysOn(Hand(x.core, item), y.core, RunBatch(s, m, x, items).core);
    }
    StaysGrows(Hand(x.core, item), RunBatch(s, m, x, items).core);
    CoreDeedsGrow(Hand(x.core, item), RunBatch(s, m, x, items).core);
  }

  /** A delivery that falls due before the next round would have begun is handed over at its
      due time by the resumed attempt, and later by the uninterrupted one. */
  lemma NotSeamlessDiffers(s: Setup, m: Minds, m': Minds, x: Session, y: Session, k: nat)
    requires InStep(s, x, y, k) && Pending(x.core.world) && !Seamless(s, x.core.world)
    requires forall i :: i in x.core.world.queue ==> i.delivery.recipient !in x.core.world.dropped
    requires SessionLoop(s, m, EndRound(s, x)).0.core.journal.sequence + k < s.limits.maxEvents
    ensures Deeds(SessionLoop(s, m, EndRound(s, x)).0.core.Events()) != Deeds(SessionLoop(s, m', y).0.core.Events())
  {
    hide SessionLoop, Deeds, Canon, NextDue, EndRound, InStep, LimitHit, AdvanceTo, PopDue;
    var i :| i in x.core.world.queue && i.due < x.core.world.time + s.clockStep && i.due <= s.limits.maxLogicalTime;
    TickEffect(s, x);
    AlikeWorld(s, x, y, k);
    SameItems(s, x, y, k);
    PendingAlike(s, x, y, k);
    LoopGrows(s, m, EndRound(s, x));
    EarlyDelivery(s, m', y, i);
    LoopGrowsLog(s, m, EndRound(s, x));
    CoreDeedsGrow(EndRound(s, x).core, SessionLoop(s, m, EndRound(s, x)).0.core);
    EndRoundIsSameWork(s, x, y, k);
  }

  lemma EarlyDelivery(s: Setup, m: Minds, y: Session, i: Item)
    requires Pending(y.core.world) && i in y.core.world.queue && i.due <= s.limits.maxLogicalTime
    requires !y.core.world.finished && !Blocked(s, y.core.world) && y.core.journal.sequence + 1 < s.limits.maxEvents
    requires forall j :: j in y.core.world.queue ==> j.delivery.recipient !in y.core.world.dropped
    ensures var was, log := y.core.Events(), SessionLoop(s, m, y).0.core.Events();
      |Deeds(log)| > |Deeds(was)| && Deeds(log)[|Deeds(was)|].time <= i.due
  {
    hide SessionLoop, Deeds, Canon;
    SkipAhead(s, m, y);
    NextDueIsFirst(s.digest, y.core.world.queue);
    var next := NextDue(y.core.world.queue).value;
    NextDueIsLeast(y.core.world.queue, next);
    NextDueIsMet(y.core.world.queue, next);
    PendingNext(y.core.world);
    var y2 := y.(core := AdvanceTo(y.core, next));
    DeedsSnoc(y.core.Events(), Stamp(y.core.journal.attempt, y.core.journal.sequence, y.core.journal.index,
                                     PublicDraft(ClockAdvanced, WORLD_ACTOR, next, Clock(next))));
    SomethingDue(s, y2.core);
    FirstDelivery(s, m, y2);
  }

  lemma SomethingDue(s: Setup, c: Core)
    requires exists i :: i in c.world.queue && i.due == c.world.time
    ensures PopDue(s, c).1 != [] && PopDue(s, c).1[0] in c.world.queue
  {
    PopDueConserves(s.digest, c.world.queue, c.world.time);
    var i :| i in c.world.queue && i.due == c.world.time;
    assert i in multiset(c.world.queue);
    assert i in multiset(Popped(s.digest, c.world.queue, c.world.time));
    assert PopDue(s, c).1[0] in PopDue(s, c).1;
  }

  // ---- a resumed attempt ----

  /** Every agent can be restored, or is still as it started. */
  ghost predicate Restorable(m: Minds, m': Minds, memos: map<Agent, Memo>) {
    && memos.Keys == m'.initial.Keys
    && forall a :: a in memos ==> a in m.restorable || memos[a] == m'.initial[a]
  }

  lemma {:induction false} RegisterExtra(s: Setup, c: Core, c': Core, k: int, agents: seq<AgentSpec>)
    requires Like(s, c, c', k)
    ensures Like(s, c, RegisterAll(c', agents), k + |agents|)
  {
    hide Like, Emit;
    if |agents| > 0 {
      var n := |agents| - 1;
      RegisterExtra(s, c, c', k, agents[..n]);
      var r := RegisterAll(c', agents[..n]);
      EmitExtra(s, c, r, k + n, PublicDraft(AgentRegistered, agents[n].id, r.world.time, Registered(agents[n].role)));
    }
  }

  /** Memory as the checkpoint describes it is memory as it was. */
  lemma ReloadInStep(s: Setup, m: Minds, m': Minds, z: Session, t: Tables)
    requires Restorable(m, m', z.memos) && z.sinceCheckpoint == 0
    requires Dense(t.events) && z.core.journal.sequence <= |t.events| && t.events[..z.core.journal.sequence] == z.core.Events()
    ensures InStep(s, z, Reload(m', Opened(t), Capture(s, m, z)), 0)
  {
    hide Deeds, Canon, Dense;
    var c := Capture(s, m, z);
    CutIsPrefix(t.events, c.sequence);
    ArchiveRowsEffect(Opened(t), Filter(t.events, From(c.sequence)));
    CanonIdempotent(s.digest, z.core.world.queue);
    assert RestoreMemos(m', c.memos) == z.memos;
  }

  lemma RejoinInStep(s: Setup, m: Minds, m': Minds, z: Session, t: Tables)
    requires Restorable(m, m', z.memos) && z.sinceCheckpoint == 0
    requires Dense(t.events) && z.core.journal.sequence <= |t.events| && t.events[..z.core.journal.sequence] == z.core.Events()
    ensures var c := Capture(s, m, z);
      InStep(s, SaveCheckpoint(s, m, z), Announce(s, Rejoin(s, m', Opened(t), c), Some(c.sequence)), |s.agents| + 1)
  {
    var c := Capture(s, m, z);
    hide Deeds, Canon, Dense, Emit, Reload, RegisterAll, SnapshotOf;
    ReloadInStep(s, m, m', z, t);
    var r := Reload(m', Opened(t), c);
    var superseded := |Filter(t.events, From(c.sequence))|;
    EmitExtra(s, z.core, r.core, 0, PublicDraft(AttemptStarted, WORLD_ACTOR, r.core.world.time, Resumed(c.sequence, superseded)));
    var j := Rejoin(s, m', Opened(t), c);
    var started := PublicDraft(RunStarted, WORLD_ACTOR, j.core.world.time, NoBody);
    EmitExtra(s, z.core, j.core, 1, started);
    RegisterExtra(s, z.core, Emit(j.core, started), 2, s.agents);
    var y := RegisterAll(Emit(j.core, started), s.agents);
    var saved := z.core.(journal := z.core.journal.(disk := WithCheckpoint(z.core.journal.disk, c)));
    assert Like(s, saved, y, |s.agents| + 2);
    LessOne(s, saved, y, |s.agents| + 2, PublicDraft(SnapshotCreated, WORLD_ACTOR, z.core.world.time, Body.Snapshot(c.sequence)));
    RegisterSameWorld(Emit(j.core, started), s.agents);
  }

  lemma LessOne(s: Setup, c: Core, c': Core, k: int, d: Draft)
    requires Like(s, c, c', k) && Bookkeeping(d.kind)
    ensures Like(s, Emit(c, d), c', k - 1)
  {
    hide Canon, Deeds;
    DeedsSnoc(c.Events(), Stamp(c.journal.attempt, c.journal.sequence, c.journal.index, d));
  }

  lemma {:induction false} RegisterSameWorld(c: Core, agents: seq<AgentSpec>)
    ensures RegisterAll(c, agents).world == c.world && RegisterAll(c, agents).rng == c.rng
  {
    if |agents| > 0 {
      RegisterSameWorld(c, agents[..|agents| - 1]);
    }
  }

  lemma ActivatedAlready(s: Setup, x: Session, y: Session, k: int)
    requires InStep(s, x, y, k) && x.driver.activated != []
    ensures Activate(s, y) == y
  {
  }

  /** The items of a batch nobody is left to receive. */
  ghost predicate AllGone(dropped: set<Agent>, items: seq<Item>) {
    forall i :: i in items ==> i.delivery.recipient in dropped
  }

  /** What is left of a batch does nothing if nobody is left to receive it, and otherwise does some work. */
  lemma {:induction false} RestOfBatch(s: Setup, m: Minds, x: Session, items: seq<Item>)
    requires x.core.world.finished ==> items == []
    ensures AllGone(x.core.world.dropped, items) ==> RunBatch(s, m, x, items) == x
    ensures !AllGone(x.core.world.dropped, items) ==>
      Deeds(RunBatch(s, m, x, items).core.Events()) != Deeds(x.core.Events())
    decreases |items|
  {
    if |items| > 0 {
      assert items == [items[0]] + items[1..];
      if items[0].delivery.recipient in x.core.world.dropped {
        RestOfBatch(s, m, x, items[1..]);
      } else {
        hide Deeds;
        FirstHand(s, m, x, items);
      }
    }
  }

  /** The controller that goes on from the checkpoint `z` writes now, with `items` of the batch in hand. */
  function GoOn(s: Setup, m: Minds, z: Session, items: seq<Item>): (Session, Outcome) {
    SessionLoop(s, m, EndRound(s, RunBatch(s, m, SaveCheckpoint(s, m, z), items)))
  }

  /** The controller that finds this checkpoint as the latest one in the database and resumes. */
  function ComeBack(s: Setup, m: Minds, m': Minds, z: Session, t: Tables): (Session, Outcome) {
    var c := Capture(s, m, z);
    RunSession(s, m', Announce(s, Rejoin(s, m', Opened(t), c), Some(c.sequence)))
  }

  /** The database holds the checkpoint `z` writes as its latest, over the log `z` had, whatever was logged after it. */
  ghost predicate Stored(s: Setup, m: Minds, z: Session, t: Tables) {
    && Latest(t.checkpoints) == Some(Capture(s, m, z))
    && Dense(t.events) && z.core.journal.sequence <= |t.events|
    && t.events[..z.core.journal.sequence] == z.core.Events()
  }

  /** Between an item of a batch and the next: what was due was popped, and who is queued for takes part. */
  ghost predicate AtRest(z: Session) {
    && z.sinceCheckpoint == 0 && z.driver.activated != []
    && Pending(z.core.world)
    && forall i :: i in z.core.world.queue ==> i.delivery.recipient !in z.core.world.dropped
  }

  /** Resume equivalence, both ways. A resumed attempt does the work of the uninterrupted one
      if and only if the checkpoint was written when nobody was left to receive the rest of the
      batch, and nothing falls due before the next round would have begun. It then also reports
      the same outcome, except at the last tick. */
  lemma ResumeEquivalence(s: Setup, m: Minds, m': Minds, z: Session, items: seq<Item>, t: Tables)
    requires SameMinds(m, m') && Restorable(m, m', z.memos) && Stored(s, m, z, t)
    requires AtRest(z) && (z.core.world.finished ==> items == [])
    requires GoOn(s, m, z, items).0.core.journal.sequence + |s.agents| + 1 < s.limits.maxEvents
    ensures var ((u, o), (v, o')) := (GoOn(s, m, z, items), ComeBack(s, m, m', z, t));
      && (SameWork(s, u, v) <==> AllGone(z.core.world.dropped, items) && Seamless(s, z.core.world))
      && (SameWork(s, u, v) ==> (o' == o <==> !LastTick(s, z.core.world)))
  {
    hide SameMinds, Restorable, Dense, InStep, SessionLoop, EndRound, LastTick, Pending, Seamless, Deeds, Canon, RunBatch,
         Stays, AllGone;
    var c := Capture(s, m, z);
    var x := SaveCheckpoint(s, m, z);
    assert x.core.world == z.core.world;
    var y := Announce(s, Rejoin(s, m', Opened(t), c), Some(c.sequence));
    RejoinInStep(s, m, m', z, t);
    ActivatedAlready(s, x, y, |s.agents| + 1);
    RestOfBatch(s, m, x, items);
    if !AllGone(z.core.world.dropped, items) {
      RunBatchStays(s, m, x, items);
      RestOfRoundIsLost(s, m, m', x, RunBatch(s, m, x, items), y, |s.agents| + 1);
    } else if Seamless(s, z.core.world) {
      CatchUp(s, m, m', x, y, |s.agents| + 1);
    } else {
      NotSeamlessDiffers(s, m, m', x, y, |s.agents| + 1);
    }
  }

  /** One whole round and what follows: without negative delays, with a positive latency and a
      clock step of at most one, a crash after a checkpoint that ends a round is harmless. */
  lemma CrashAfterRoundIsHarmless(s: Setup, m: Minds, m': Minds, x: Session, z: Session, t: Tables)
    requires Unhurried(s) && s.clockStep <= 1 && SameMinds(m, m') && Restorable(m, m', z.memos) && Stored(s, m, z, t)
    requires !x.core.world.finished && LimitHit(s, x.core).None? && PopDue(s, x.core).1 != []
    requires var (core, due) := PopDue(s, x.core);
      RunBatch(s, m, x.(core := core), due) == SaveCheckpoint(s, m, z)
    requires z.sinceCheckpoint == 0 && z.driver.activated != []
    requires forall i :: i in z.core.world.queue ==> i.delivery.recipient !in z.core.world.dropped
    requires SessionLoop(s, m, x).0.core.journal.sequence + |s.agents| + 1 < s.limits.maxEvents
    ensures var (u, o) := SessionLoop(s, m, x);
      var (v, o') := ComeBack(s, m, m', z, t);
      SameWork(s, u, v) && (o' == o <==> !LastTick(s, z.core.world))
  {
    hide SameMinds, Restorable, SameWork, LastTick, PopDue, EndRound, LimitHit, Unhurried, Stored, ComeBack;
    var (core, due) := PopDue(s, x.core);
    PopLeavesPending(s, x.core);
    BatchLeavesPending(s, m, x.(core := core), due);
    assert SaveCheckpoint(s, m, z).core.world == z.core.world;
    assert Seamless(s, z.core.world);
    assert GoOn(s, m, z, []) == SessionLoop(s, m, x);
    ResumeEquivalence(s, m, m', z, [], t);
  }

  // ---- a checkpoint in the middle of an invocation ----

  lemma GrowthIsMonotone(c: Core, c': Core)
    requires Stays(c, c')
    ensures |Deeds(c.Events())| <= |Deeds(c'.Events())|
  {
    DeedsGrow(c.Events(), c'.Events(), c.world.time);
  }

  /** Handling an emission of any kind leaves work in the log. */
  lemma EmissionIsWork(s: Setup, c: Core, agent: Agent, em: Emission, invocation: nat)
    ensures |Deeds(HandleEmission(s, c, agent, em, invocation).Events())| > |Deeds(c.Events())|
  {
    hide Deeds, Route, EnqueueAll, ApplyChange, Stays;
    match em.kind {
      case EmitMessage =>
        var p := Proposal(agent, em.content, em.recipients, c.world.time);
        RouteStays(s, c, p);
        var (c1, decision) := Route(s, c, p);
        var visibility := if em.isPrivate then Private else decision.visibility;
        var authorized := if visibility.Public? then [] else [agent] + decision.recipients;
        var d := Draft(AgentMessage, agent, c.world.time, decision.recipients, None, visibility, authorized,
                       Said(em.content, invocation), em.delta);
        var ds := Map(decision.recipients, Addressed(agent, em, decision, visibility));
        OneMore(c1, d);
        EnqueueAllStays(s, Emit(c1, d), ds, decision.orderHint);
        GrowthIsMonotone(c, c1);
        GrowthIsMonotone(Emit(c1, d), EnqueueAll(s, Emit(c1, d), ds, decision.orderHint));
      case EmitAction =>
        var action := ActionOf(agent, em);
        var d := PublicDraft(ActionTaken, action.actor, c.world.time, Acted(action.kind, action.args)).(delta := em.delta);
        OneMore(c, d);
        var c1 := Emit(c, d);
        match s.handle(action, ViewOf(s, c1.world)) {
          case None => OneMore(c1, PublicDraft(PolicyDecided, WORLD_ACTOR, c1.world.time, Policy("unknown_action", false, action.kind, 0)));
          case Some(change) =>
            ApplyChangeStays(s, c1, action, change);
            GrowthIsMonotone(c1, ApplyChange(s, c1, action, change));
        }
      case EmitToolCall =>
        OneMore(c.(world := c.world.(counters := c.world.counters.(toolCalls := c.world.counters.toolCalls + 1))),
                Draft(ToolCalled, agent, c.world.time, [], None, Private, [agent], ToolUse(em.tool, em.toolArgs), em.delta));
      case EmitFinal =>
        OneMore(c, PublicDraft(AgentFinal, agent, c.world.time, Said(em.content, invocation)).(delta := em.delta));
      case EmitError =>
        OneMore(c, PublicDraft(AgentError, agent, c.world.time, Failed(em.content)));
    }
  }

  lemma OneMore(c: Core, d: Draft)
    requires !Bookkeeping(d.kind)
    ensures |Deeds(Emit(c, d).Events())| == |Deeds(c.Events())| + 1
  {
    DeedsSnoc(c.Events(), Stamp(c.journal.attempt, c.journal.sequence, c.journal.index, d));
  }

  lemma StreamIsWork(s: Setup, m: Minds, x: Session, agent: Agent, emissions: seq<Emission>, invocation: nat)
    requires emissions != []
    ensures |Deeds(RunStream(s, m, x, agent, emissions, invocation).core.Events())| > |Deeds(x.core.Events())|
  {
    hide Deeds, HandleEmission, MaybeCheckpoint, Stays;
    var c := Charge(x.core, emissions[0]);
    EmissionIsWork(s, c, agent, emissions[0], invocation);
    var y := x.(core := HandleEmission(s, c, agent, emissions[0], invocation));
    var y' := MaybeCheckpoint(s, m, y);
    MaybeCheckpointStays(s, m, y);
    GrowthIsMonotone(y.core, y'.core);
    RunStreamStays(s, m, y', agent, emissions[1..], invocation);
    GrowthIsMonotone(y'.core, RunStream(s, m, y', agent, emissions[1..], invocation).core);
  }

  /** A checkpoint written while something of the round was still to be done: however the round
      ends (`w`), a resumed attempt does not do the same work. */
  lemma UnfinishedRoundIsLost(s: Setup, m: Minds, m': Minds, z: Session, w: Session, t: Tables)
    requires SameMinds(m, m') && Restorable(m, m', z.memos) && Stored(s, m, z, t) && AtRest(z)
    requires Stays(SaveCheckpoint(s, m, z).core, w.core)
    requires Deeds(w.core.Events()) != Deeds(SaveCheckpoint(s, m, z).core.Events())
    ensures Deeds(SessionLoop(s, m, EndRound(s, w)).0.core.Events()) != Deeds(ComeBack(s, m, m', z, t).0.core.Events())
    ensures !SameWork(s, SessionLoop(s, m, EndRound(s, w)).0, ComeBack(s, m, m', z, t).0)
  {
    hide SameMinds, Restorable, Dense, InStep, SessionLoop, EndRound, Deeds, Canon, Stays, Pending;
    var c := Capture(s, m, z);
    var x := SaveCheckpoint(s, m, z);
    assert x.core.world == z.core.world;
    var y := Announce(s, Rejoin(s, m', Opened(t), c), Some(c.sequence));
    RejoinInStep(s, m, m', z, t);
    ActivatedAlready(s, x, y, |s.agents| + 1);
    RestOfRoundIsLost(s, m, m', x, w, y, |s.agents| + 1);
  }

  /** So with a checkpoint written while an agent still has something to emit. */
  lemma MidInvocationIsLost(
      s: Setup, m: Minds, m': Minds, z: Session, agent: Agent, rest: seq<Emission>, invocation: nat, w: Session, t: Tables)
    requires SameMinds(m, m') && Restorable(m, m', z.memos) && Stored(s, m, z, t) && AtRest(z)
    requires rest != [] && Stays(RunStream(s, m, SaveCheckpoint(s, m, z), agent, rest, invocation).core, w.core)
    ensures !SameWork(s, SessionLoop(s, m, EndRound(s, w)).0, ComeBack(s, m, m', z, t).0)
  {
    hide SameMinds, Restorable, Stored, AtRest, SameWork, SessionLoop, EndRound, Deeds, RunStream, Stays, SaveCheckpoint, ComeBack;
    var x := SaveCheckpoint(s, m, z);
    var x1 := RunStream(s, m, x, agent, rest, invocation);
    StreamIsWork(s, m, x, agent, rest, invocation);
    RunStreamStays(s, m, x, agent, rest, invocation);
    StaysOn(x.core, x1.core, w.core);
    GrowthIsMonotone(x1.core, w.core);
    UnfinishedRoundIsLost(s, m, m', z, w, t);
  }

  /** Asking an agent leaves work in the log. */
  lemma InvokeIsWork(s: Setup, m: Minds, x: Session, agent: Agent, d: Delivery, cause: EventId)
    ensures |Deeds(Invoke(s, m, x, agent, d, cause).core.Events())| > |Deeds(x.core.Events())|
  {
    hide Deeds, RunStream, Stays, RequestFor;
    var invocation := x.driver.invocations + 1;
    var draft := Draft(AgentInvoked, agent, x.core.world.time, [], Some(cause), Private, [agent], Invoked(invocation, d.content), NoResources);
    OneMore(x.core, draft);
    var reply := m.invoke(agent, MemoOf(x, agent), RequestFor(s, x, agent, d, invocation));
    var x1 := x.(core := Emit(x.core, draft), driver := x.driver.(invocations := invocation), memos := x.memos[agent := reply.memo]);
    RunStreamStays(s, m, x1, agent, reply.emissions, invocation);
    GrowthIsMonotone(x1.core, RunStream(s, m, x1, agent, reply.emissions, invocation).core);
  }

  /** And with one written between the delivered event and the invocation it is for: the log
      shows the delivery, and the recipient is never invoked for it. */
  lemma DeliveredNotInvokedIsLost(
      s: Setup, m: Minds, m': Minds, z: Session, agent: Agent, d: Delivery, cause: EventId, w: Session, t: Tables)
    requires SameMinds(m, m') && Restorable(m, m', z.memos) && Stored(s, m, z, t) && AtRest(z)
    requires Stays(Invoke(s, m, SaveCheckpoint(s, m, z), agent, d, cause).core, w.core)
    ensures !SameWork(s, SessionLoop(s, m, EndRound(s, w)).0, ComeBack(s, m, m', z, t).0)
  {
    hide SameMinds, Restorable, Stored, AtRest, SameWork, SessionLoop, EndRound, Deeds, Invoke, Stays, SaveCheckpoint, ComeBack;
    var x := SaveCheckpoint(s, m, z);
    var x1 := Invoke(s, m, x, agent, d, cause);
    InvokeIsWork(s, m, x, agent, d, cause);
    InvokeStays(s, m, x, agent, d, cause);
    StaysOn(x.core, x1.core, w.core);
    GrowthIsMonotone(x1.core, w.core);
    UnfinishedRoundIsLost(s, m, m', z, w, t);
  }

  // ---- verdicts ----

  /** The verifier judges the state and the work, not the clock or the bookkeeping. */
  ghost predicate JudgesWork(s: Setup) {
    forall v: View, time: int, e: seq<Event>, e': seq<Event> :: Deeds(e) == Deeds(e') ==>
      s.verify(v.(time := time), e') == s.verify(v, e)
  }

  /** The resumed attempt gets the same verdict, the same payoffs and, outcomes being equal, the same terminal state. */
  lemma SameWorkSameVerdict(s: Setup, u: Session, v: Session, o: Outcome)
    requires SameWork(s, u, v) && JudgesWork(s)
    ensures Verify(s, v.core).1 == Verify(s, u.core).1
    ensures Verify(s, v.core).0.world.payoffs == Verify(s, u.core).0.world.payoffs
    ensures TerminalState(o, Verify(s, v.core).1) == TerminalState(o, Verify(s, u.core).1)
  {
    hide Canon, Deeds;
    var view := ViewOf(s, u.core.world);
    assert ViewOf(s, v.core.world) == view.(time := v.core.world.time);
    assert s.verify(view.(time := v.core.world.time), v.core.Events()) == s.verify(view, u.core.Events());
  }
}
