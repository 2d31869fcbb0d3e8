/** How an attempt ends: why its driver stops, what is logged and paid at the end, and the terminal
    state that its rows and its last event show. */
module Verdicts {
  import opened Wrappers
  import opened Contracts
  import opened KernelState
  import opened Sorting
  import opened Scheduler
  import opened Store
  import opened Journals
  import opened WorldRules
  import opened DriverRules
  import opened RunRules
  import opened DriverInvariants
  import opened Recovery
  import opened Resumption
  import opened Continuity

  // ---- why a driver stops ----

  /** The end of the episode, a limit, or nothing left to deliver. */
  ghost predicate StopsFor(s: Setup, x: Session, o: Outcome) {
    var w := x.core.world;
    && o.finished == w.finished
    && (w.finished ==> o.limit.None? && o.reason == if w.finishReason != "" then w.finishReason else "task_finished")
    && (!w.finished ==>
          match o.limit
          case None => o.reason == "quiescent" && w.queue == [] && FirstExceeded(s, x.core, None)
          case Some(limit) =>
            || FirstExceeded(s, x.core, Some(limit))
            || (limit.MaxLogicalTime? && FirstExceeded(s, x.core, None) && w.queue != []
                && forall i :: i in w.queue ==> i.due > s.limits.maxLogicalTime))
    && (o.limit.Some? ==> o.reason == "limit:" + Named(o.limit.value))
  }

  function Named(limit: Limit): string {
    match limit
    case MaxLogicalTime => "max_logical_time"
    case MaxEvents => "max_events"
    case MaxMessages => "max_messages"
    case MaxModelCalls => "max_model_calls"
    case MaxCostUsd => "max_cost_usd"
  }

  lemma NothingNext(items: seq<Item>)
    ensures NextDue(items).None? <==> items == []
  {
  }

  lemma StopsAtLimit(s: Setup, x: Session)
    ensures x.core.world.finished ==> StopsFor(s, x, Done(x.core.world))
    ensures !x.core.world.finished && LimitHit(s, x.core).Some? ==> StopsFor(s, x, Stopped(LimitHit(s, x.core).value))
  {
    LimitHitIsFirst(s, x.core, LimitHit(s, x.core));
    hide FirstExceeded, LimitHit;
  }

  lemma StopsWithoutWork(s: Setup, x: Session)
    requires !x.core.world.finished && LimitHit(s, x.core).None?
    ensures x.core.world.queue == [] ==> StopsFor(s, x, Outcome(false, "quiescent", None))
    ensures x.core.world.queue != [] && (forall i :: i in x.core.world.queue ==> i.due > s.limits.maxLogicalTime) ==>
      StopsFor(s, x, Stopped(MaxLogicalTime))
  {
    LimitHitIsFirst(s, x.core, None);
    hide FirstExceeded, LimitHit;
  }

  lemma NothingDue(s: Setup, x: Session)
    requires PopDue(s, x.core).1 == []
    ensures PopDue(s, x.core) == (x.core, [])
  {
    PopDueConserves(s.digest, x.core.world.queue, x.core.world.time);
    PopNothing(s, x.core) by {
      forall i | i in x.core.world.queue ensures i.due > x.core.world.time {
        assert i in multiset(x.core.world.queue);
        assert multiset(Popped(s.digest, x.core.world.queue, x.core.world.time)) == multiset{};
        assert i in multiset(Remaining(x.core.world.queue, x.core.world.time));
      }
    }
  }

  /** Why a session loop stops, for every session. */
  lemma {:induction false} SessionStops(s: Setup, m: Minds, x: Session)
    ensures var (u, o) := SessionLoop(s, m, x); StopsFor(s, u, o)
    decreases if x.core.journal.sequence < s.limits.maxEvents then s.limits.maxEvents - x.core.journal.sequence else 0,
              |x.core.world.queue|
  {
    hide RunBatch, LimitHit, NextDue, PopDue, AdvanceTo, EndRound, StopsFor;
    StopsAtLimit(s, x);
    if !x.core.world.finished && LimitHit(s, x.core).None? {
      LimitLeavesRoom(s, x.core);
      PopShrinks(s, x.core);
      var (core, due) := PopDue(s, x.core);
      var popped := x.(core := core);
      if |due| > 0 {
        EndRoundProgress(s, popped, RunBatch(s, m, popped, due));
        SessionStops(s, m, EndRound(s, RunBatch(s, m, popped, due)));
      } else {
        NothingDue(s, x);
        assert popped == x;
        NextDueIsLater(core.world.queue, core.world.time);
        NothingNext(core.world.queue);
        StopsWithoutWork(s, x);
        match NextDue(core.world.queue) {
          case None =>
          case Some(next) =>
            NextDueIsLeast(core.world.queue, next);
            if next <= s.limits.maxLogicalTime {
              AdvanceProgress(core, next);
              SessionStops(s, m, popped.(core := AdvanceTo(core, next)));
            }
        }
      }
    }
  }

  /** And an environment loop: the end of the episode, its time, or its events. */
  ghost predicate EnvStopsFor(s: Setup, x: Session, o: Outcome) {
    var w := x.core.world;
    && o.finished == w.finished
    && (w.finished ==> o.limit.None? && o.reason == if w.finishReason != "" then w.finishReason else "task_finished")
    && (!w.finished && w.time > s.limits.maxLogicalTime ==> o.limit == Some(MaxLogicalTime))
    && (!w.finished && w.time <= s.limits.maxLogicalTime ==> o.limit == Some(MaxEvents) && x.core.journal.sequence >= s.limits.maxEvents)
    && (o.limit.Some? ==> o.reason == "limit:" + Named(o.limit.value))
  }

  lemma {:induction false} EnvStops(s: Setup, m: Minds, x: Session)
    requires s.clockStep >= 1
    ensures var (u, o) := EnvLoop(s, m, x); EnvStopsFor(s, u, o)
    decreases if x.core.journal.sequence < s.limits.maxEvents then s.limits.maxEvents - x.core.journal.sequence else 0
  {
    hide Tick;
    if !x.core.world.finished && x.core.world.time <= s.limits.maxLogicalTime && x.core.journal.sequence < s.limits.maxEvents {
      TickEffect(s, Tick(s, m, x));
      hide EndRound;
      EnvStops(s, m, EndRound(s, Tick(s, m, x)));
    }
  }

  // ---- the end of an attempt ----

  /** What the driver of an attempt comes to. */
  function DriverEnd(s: Setup, m: Minds, t: Tables): (Session, Outcome)
    requires Runnable(s)
  {
    RunDriver(s, m, Started(s, m, t))
  }

  /** A session stopped because more was spent than is allowed, and neither time nor events had run out. */
  ghost predicate Overspent(s: Setup, x: Session) {
    && s.driver.SessionDriven? && !x.core.world.finished
    && x.core.world.time <= s.limits.maxLogicalTime && x.core.journal.sequence < s.limits.maxEvents
    && (|| x.core.world.counters.messages > s.limits.maxMessages
        || x.core.world.counters.modelCalls > s.limits.maxModelCalls
        || x.core.world.resources.costUsd > s.limits.maxCostUsd)
  }

  /** What a verifier has to say about the end. */
  function Opinion(s: Setup, u: Session): Option<Verdict> {
    s.verify(ViewOf(s, u.core.world), u.core.Events())
  }

  ghost predicate Failed(v: Option<Verdict>) {
    v.Some? && !v.value.success
  }

  lemma BlockedIsOverspent(s: Setup, m: Minds, t: Tables)
    requires Runnable(s)
    ensures var (u, o) := DriverEnd(s, m, t);
      (o.limit.Some? && (o.limit.value.MaxMessages? || o.limit.value.MaxModelCalls? || o.limit.value.MaxCostUsd?)) <==> Overspent(s, u)
  {
    hide SessionLoop, EnvLoop, Started, Activate;
    if s.driver.SessionDriven? {
      SessionStops(s, m, Activate(s, Started(s, m, t)));
      FirstIsOverspent(s, DriverEnd(s, m, t).0, DriverEnd(s, m, t).1);
    } else {
      EnvStops(s, m, Started(s, m, t));
    }
  }

  lemma FirstIsOverspent(s: Setup, x: Session, o: Outcome)
    requires s.driver.SessionDriven? && StopsFor(s, x, o)
    ensures (o.limit.Some? && (o.limit.value.MaxMessages? || o.limit.value.MaxModelCalls? || o.limit.value.MaxCostUsd?)) <==> Overspent(s, x)
  {
    if o.limit.Some? && FirstExceeded(s, x.core, o.limit) {
      assert forall l :: Rank(l) < Rank(o.limit.value) ==> !Exceeded(s, x.core, l);
      assert o.limit.value != MaxLogicalTime ==> !Exceeded(s, x.core, MaxLogicalTime);
      assert o.limit.value != MaxLogicalTime && o.limit.value != MaxEvents ==> !Exceeded(s, x.core, MaxEvents);
    }
    assert FirstExceeded(s, x.core, None) ==>
      !Exceeded(s, x.core, MaxMessages) && !Exceeded(s, x.core, MaxModelCalls) && !Exceeded(s, x.core, MaxCostUsd);
    assert Exceeded(s, x.core, MaxLogicalTime) <==> x.core.world.time > s.limits.maxLogicalTime;
    assert Exceeded(s, x.core, MaxEvents) <==> x.core.journal.sequence >= s.limits.maxEvents;
  }

  /** Payoffs add up, agent by agent. */
  ghost predicate AddsUp(sum: map<Agent, real>, a: map<Agent, real>, b: map<Agent, real>) {
    && (forall x :: x in sum <==> x in a || x in b)
    && (forall x :: x in a && x in b ==> sum[x] == a[x] + b[x])
    && (forall x :: x in a && x !in b ==> sum[x] == a[x])
    && (forall x :: x in b && x !in a ==> sum[x] == b[x])
  }

  /** What is logged after the driver: the payoffs if there are any, the verdict if there is one, and the end. */
  ghost predicate ClosesWith(s: Setup, u: Session, x: Session, state: RunState, reason: string) {
    var before, log := u.core.Events(), x.core.Events();
    && before <= log && |log| > |before|
    && log[|log| - 1].kind.RunFinished? && log[|log| - 1].body == Ended(state, reason)
    && match Opinion(s, u)
       case None => |log| == |before| + 1 && x.core.world == u.core.world
       case Some(v) =>
         && |log| == |before| + (if v.perAgent == map[] then 2 else 3)
         && log[|log| - 2].kind.VerifierResult? && log[|log| - 2].body == Judged(v.success, v.reward, v.perAgent)
         && (v.perAgent == map[] ==> x.core.world == u.core.world)
         && (v.perAgent != map[] ==>
               && log[|before|].kind.PayoffAssigned? && log[|before|].body == Paid(x.core.world.payoffs)
               && x.core.world == u.core.world.(payoffs := x.core.world.payoffs)
               && AddsUp(x.core.world.payoffs, u.core.world.payoffs, v.perAgent))
  }

  lemma Concluded(s: Setup, u: Session, o: Outcome, from: Option<nat>)
    ensures var x := Conclude(s, u, o, from);
      && ClosesWith(s, u, x, x.core.journal.disk.tables.runState, o.reason)
      && x.core.journal.attempt == u.core.journal.attempt
      && x.core.journal.attempt in x.core.journal.disk.tables.attempts
      && x.core.journal.disk.tables.attempts[x.core.journal.attempt] == AttemptRow(x.core.journal.disk.tables.runState, from)
  {
  }

  /** How each attempt that reaches its end is settled. It was blocked by policy exactly if it
      overspent; otherwise the task failed exactly if there is a verdict and it is negative, and the
      run is complete in all other cases. The run row, the attempt's row and the last event say
      so, the log says what the verdict was, and the payoffs are the verdict's added up. */
  lemma AttemptIsSettled(s: Setup, m: Minds, t: Tables) returns (from: Option<nat>)
    requires Runnable(s)
    ensures var (u, o) := DriverEnd(s, m, t);
      var x := Attempt(s, m, Opened(t));
      var tables := x.core.journal.disk.tables;
      && (tables.runState == PolicyBlocked <==> Overspent(s, u))
      && (tables.runState == TaskFailed <==> !Overspent(s, u) && Failed(Opinion(s, u)))
      && (tables.runState == Complete <==> !Overspent(s, u) && !Failed(Opinion(s, u)))
      && x.core.journal.attempt in tables.attempts && tables.attempts[x.core.journal.attempt] == AttemptRow(tables.runState, from)
      && ClosesWith(s, u, x, tables.runState, o.reason)
      && from == match Latest(t.checkpoints) case None => None case Some(c) => Some(c.sequence)
  {
    var (u, o) := DriverEnd(s, m, t);
    from := match Latest(t.checkpoints) case None => None case Some(c) => Some(c.sequence);
    BlockedIsOverspent(s, m, t);
    assert Attempt(s, m, Opened(t)) == Conclude(s, u, o, from) by { hide RunDriver, Conclude, Announce, Begin, Rejoin; }
    hide RunDriver, Attempt, Overspent, ClosesWith, DriverEnd;
    Concluded(s, u, o, from);
    ConcludedState(s, u, o, from);
  }

  lemma ConcludedState(s: Setup, u: Session, o: Outcome, from: Option<nat>)
    ensures var state := Conclude(s, u, o, from).core.journal.disk.tables.runState;
      var blocked := o.limit.Some? && (o.limit.value.MaxMessages? || o.limit.value.MaxModelCalls? || o.limit.value.MaxCostUsd?);
      && (state == PolicyBlocked <==> blocked)
      && (state == TaskFailed <==> !blocked && Failed(Opinion(s, u)))
      && (state == Complete <==> !blocked && !Failed(Opinion(s, u)))
  {
    hide AssignPayoffs, Emit;
  }

  /** The same read off the log alone: the task failed if and only if the attempt did not overspend
      and its log ends with a verdict that says so. */
  lemma FailureIsInTheLog(s: Setup, m: Minds, t: Tables)
    requires Runnable(s)
    ensures var u := DriverEnd(s, m, t).0;
      var x := Attempt(s, m, Opened(t));
      var log := x.core.Events();
      && |log| > 0
      && (x.core.journal.disk.tables.runState == TaskFailed <==>
            !Overspent(s, u) && exists i :: |u.core.Events()| <= i < |log| && log[i].body.Judged? && !log[i].body.success)
      && log[|log| - 1].body.Ended? && log[|log| - 1].body.state == x.core.journal.disk.tables.runState
  {
    var from := AttemptIsSettled(s, m, t);
    var (u, o) := DriverEnd(s, m, t);
    var x := Attempt(s, m, Opened(t));
    hide DriverEnd, Attempt, Overspent;
    LogTells(s, u, x, x.core.journal.disk.tables.runState, o.reason);
  }

  lemma LogTells(s: Setup, u: Session, x: Session, state: RunState, reason: string)
    requires ClosesWith(s, u, x, state, reason)
    ensures var log := x.core.Events();
      Failed(Opinion(s, u)) <==> exists i :: |u.core.Events()| <= i < |log| && log[i].body.Judged? && !log[i].body.success
  {
    var before, log := u.core.Events(), x.core.Events();
    if Failed(Opinion(s, u)) {
      assert log[|log| - 2].body.Judged? && !log[|log| - 2].body.success;
    }
    if exists i :: |before| <= i < |log| && log[i].body.Judged? && !log[i].body.success {
      var i :| |before| <= i < |log| && log[i].body.Judged? && !log[i].body.success;
      assert i == |log| - 1 || i == |log| - 2 || i == |before|;
    }
  }
}
