/** The pace of a whole run, and what an environment asks of its agents: a checkpoint every so many
    steps, whichever driver runs; each action of an agent is performed or collected, in the order in
    which it came, and everything heard is paid for. */
module Pace {
  import opened Wrappers
  import opened Contracts
  import opened KernelState
  import opened Sorting
  import opened Scheduler
  import opened Journals
  import opened WorldRules
  import opened DriverRules
  import opened DriverInvariants
  import opened Invariants
  import opened Resumption
  import opened Messages
  import opened Changes
  import opened Performance

  // ---- sessions ----

  lemma ClockPaced(s: Setup, x: Session, y: Session, time: int)
    requires y.core == AdvanceTo(x.core, time) && y.sinceCheckpoint == x.sinceCheckpoint
    ensures Paced(s, x, y) && y.core.world.dropped == x.core.world.dropped
  {
    var c := x.core;
    if time > c.world.time {
      var d := PublicDraft(ClockAdvanced, WORLD_ACTOR, time, Clock(time));
      UtteranceSnoc(c.Events(), Stamp(c.journal.attempt, c.journal.sequence, c.journal.index, d));
      hide Deliveries, Utterances, Noted, Paced;
      assert Deliveries(c.Events()) + [] == Deliveries(c.Events()) && Utterances(c.Events()) + [] == Utterances(c.Events());
      assert Noted(c.Events()) + [] == Noted(c.Events());
      NoStep(s, x, y);
    } else {
      NoStep(s, x, y);
    }
  }

  lemma {:induction false} OpeningsPaced(s: Setup, x: Session, agents: seq<Agent>)
    ensures var y := OpenAll(s, x, agents); Paced(s, x, y) && y.core.world.dropped == x.core.world.dropped
  {
    hide Enqueue, ViewOf, Paced;
    if |agents| == 0 {
      NoStep(s, x, x);
    } else {
      var y := OpenAll(s, x, agents[..|agents| - 1]);
      OpeningsPaced(s, x, agents[..|agents| - 1]);
      var agent := agents[|agents| - 1];
      var z := Open(s, y, agent);
      match s.opening(agent, ViewOf(s, y.core.world)) {
        case None =>
        case Some(text) =>
          var d := Delivery(WORLD_ACTOR, agent, text, map["kind" := "opening"], Private, 0);
          EnqueueInBackground(s, y.core, d, 0);
          BackgroundIsSilent(y.core, z.core);
          BackgroundFacts(y.core, z.core);
          NoStep(s, y, z);
          PacedOn(s, x, y, z);
      }
    }
  }

  lemma RoundPaced(s: Setup, m: Minds, x: Session, due: seq<Item>)
    requires x.core.world.dropped == {}
    ensures var y := EndRound(s, RunBatch(s, m, x, due)); Paced(s, x, y) && y.core.world.dropped == {}
  {
    hide RunBatch, AdvanceTo, Deliveries, Paced;
    var made := BatchHands(s, m, x, due);
    var y := RunBatch(s, m, x, due);
    ClockPaced(s, y, EndRound(s, y), y.core.world.time + s.clockStep);
    PacedOn(s, x, y, EndRound(s, y));
  }

  lemma {:induction false} LoopPaced(s: Setup, m: Minds, x: Session)
    requires x.core.world.dropped == {}
    ensures Paced(s, x, SessionLoop(s, m, x).0)
    decreases if x.core.journal.sequence < s.limits.maxEvents then s.limits.maxEvents - x.core.journal.sequence else 0,
              |x.core.world.queue|
  {
    hide RunBatch, LimitHit, NextDue, AdvanceTo, Popped, Remaining, Paced;
    NoStep(s, x, x);
    if !x.core.world.finished && LimitHit(s, x.core).None? {
      LimitLeavesRoom(s, x.core);
      PopShrinks(s, x.core);
      PopDueConserves(s.digest, x.core.world.queue, x.core.world.time);
      var (core, due) := PopDue(s, x.core);
      var popped := x.(core := core);
      NoStep(s, x, popped);
      if |due| > 0 {
        var y := EndRound(s, RunBatch(s, m, popped, due));
        RoundPaced(s, m, popped, due);
        EndRoundProgress(s, popped, RunBatch(s, m, popped, due));
        LoopPaced(s, m, y);
        PacedOn(s, x, popped, y);
        PacedOn(s, x, y, SessionLoop(s, m, y).0);
      } else {
        NextDueIsLater(core.world.queue, core.world.time);
        if NextDue(core.world.queue).Some? && NextDue(core.world.queue).value <= s.limits.maxLogicalTime {
          var next := NextDue(core.world.queue).value;
          AdvanceProgress(core, next);
          var y := popped.(core := AdvanceTo(core, next));
          ClockPaced(s, popped, y, next);
          LoopPaced(s, m, y);
          PacedOn(s, x, popped, y);
          PacedOn(s, x, y, SessionLoop(s, m, y).0);
        }
      }
    }
  }

  /** In a session a checkpoint is written every so many steps: the deliveries made and what agents
      said and did. */
  lemma SessionPaced(s: Setup, m: Minds, x: Session)
    requires x.core.world.dropped == {}
    ensures Paced(s, x, RunSession(s, m, x).0)
  {
    hide OpenAll, SessionLoop, Paced;
    OpeningsPaced(s, x, ActiveAgents(s, x.core.world.dropped));
    NoStep(s, x, x);
    LoopPaced(s, m, Activate(s, x));
    PacedOn(s, x, Activate(s, x), SessionLoop(s, m, Activate(s, x)).0);
  }

  // ---- what is spent ----

  function Costs(emissions: seq<Emission>): ResourceDelta {
    if |emissions| == 0 then NoResources else emissions[0].delta.Plus(Costs(emissions[1..]))
  }

  lemma RefusedWorld(c: Core, rule: string, subject: string, amount: int)
    ensures PolicyEvent(c, rule, subject, amount).world == c.world
  {
  }

  lemma EnqueueSpends(s: Setup, c: Core, d: Delivery, orderHint: int)
    ensures SameSpending(Enqueue(s, c, d, orderHint).world.resources, c.world.resources)
  {
    hide ApplyFaults, Utf8Size, Setup.AgentIds, Emit, Scheduled;
    FaultsOwnWorld(s, c, Scheduled(s, c.world, d, orderHint), |s.faults|);
    RefusedWorld(c, "unknown_recipient", d.recipient, 0);
    RefusedWorld(c, "recipient_dropped_out", d.recipient, 0);
    RefusedWorld(c, "max_message_bytes", "bytes", Utf8Size(d.content));
  }

  lemma {:induction false} EnqueueAllSpends(s: Setup, c: Core, ds: seq<Delivery>, orderHint: int)
    ensures SameSpending(EnqueueAll(s, c, ds, orderHint).world.resources, c.world.resources)
  {
    hide Enqueue;
    if |ds| > 0 {
      EnqueueAllSpends(s, c, ds[..|ds| - 1], orderHint);
      EnqueueSpends(s, EnqueueAll(s, c, ds[..|ds| - 1], orderHint), ds[|ds| - 1], orderHint);
    }
  }

  /** An action spends nothing but the bytes of its messages. */
  lemma ActionSpends(s: Setup, c: Core, action: Action, delta: ResourceDelta)
    ensures SameSpending(TakeAction(s, c, action, delta).world.resources, c.world.resources)
  {
    hide EnqueueAll, GrantFacts;
    var c1 := Emit(c, PublicDraft(ActionTaken, action.actor, c.world.time, Acted(action.kind, action.args)).(delta := delta));
    match s.handle(action, ViewOf(s, c1.world)) {
      case None =>
      case Some(change) =>
        var c2 := c1.(world := c1.world.(
          state := c1.world.state + change.updates,
          privateFacts := GrantFacts(c1.world.privateFacts, change.factsTo)));
        EnqueueAllSpends(s, c2, change.messages, 0);
    }
  }

  lemma SpentOn(a: ResourceDelta, b: ResourceDelta, c: ResourceDelta, first: ResourceDelta, rest: ResourceDelta)
    requires SameSpending(b, a.Plus(first)) && SameSpending(c, b.Plus(rest))
    ensures SameSpending(c, a.Plus(first.Plus(rest)))
  {
  }

  // ---- the agents of an environment ----

  function IsAction(): Emission -> bool {
    (em: Emission) => em.kind.EmitAction?
  }

  /** The actions among emissions. */
  function Wanted(emissions: seq<Emission>): seq<Emission> {
    Filter(emissions, IsAction())
  }

  /** The event of an action that was performed; an environment logs no resources with it. */
  ghost predicate Acts(e: Event, agent: Agent, em: Emission) {
    e.kind.ActionTaken? && e.actor == agent && e.delta == NoResources && e.body.Acted? && Does(e.body.action, e.body.args, em.action)
  }

  /** From one session to a later one these utterances were added, at the pace of checkpoints, and the
      driver and what agents remember are as they were. */
  ghost predicate Added(s: Setup, x: Session, y: Session, done: seq<Event>) {
    && Utterances(y.core.Events()) == Utterances(x.core.Events()) + done
    && Deliveries(y.core.Events()) == Deliveries(x.core.Events())
    && y.driver == x.driver && y.memos == x.memos && y.core.world.dropped == x.core.world.dropped && Paced(s, x, y)
  }

  lemma AddedOn(s: Setup, x: Session, y: Session, z: Session, done: seq<Event>, more: seq<Event>)
    requires Added(s, x, y, done) && Added(s, y, z, more)
    ensures Added(s, x, z, done + more)
  {
    hide Utterances, Deliveries, Paced;
    PacedOn(s, x, y, z);
    assert Utterances(x.core.Events()) + done + more == Utterances(x.core.Events()) + (done + more);
  }

  lemma NothingAdded(s: Setup, x: Session, y: Session)
    requires y.core.Events() == x.core.Events() && y.driver == x.driver && y.memos == x.memos
    requires y.core.world.dropped == x.core.world.dropped && y.sinceCheckpoint == x.sinceCheckpoint
    ensures Added(s, x, y, [])
  {
    hide Utterances, Deliveries, Noted, Paced;
    assert Utterances(x.core.Events()) + [] == Utterances(x.core.Events());
    NoStep(s, x, y);
  }

  lemma CommitActs(s: Setup, m: Minds, x: Session, action: Action) returns (e: Event)
    ensures var y := EnvCommit(s, m, x, action);
      && Added(s, x, y, [e]) && SameSpending(y.core.world.resources, x.core.world.resources)
    ensures e.kind.ActionTaken? && e.actor == action.actor && e.body == Acted(action.kind, action.args) && e.delta == NoResources
  {
    hide TakeAction, MaybeCheckpoint, Utterances, Deliveries, Noted, Paced;
    e := ActionUtters(s, x.core, action, NoResources);
    ActionSpends(s, x.core, action, NoResources);
    var y := x.(core := TakeAction(s, x.core, action, NoResources));
    CheckpointPaced(s, m, x, y);
  }

  lemma WantedCons(emissions: seq<Emission>, n: nat)
    requires 0 < n <= |emissions|
    ensures Wanted(emissions[..n]) == (if IsAction()(emissions[0]) then [emissions[0]] else []) + Wanted(emissions[1..][..n - 1])
    ensures Costs(emissions[..n]) == emissions[0].delta.Plus(Costs(emissions[1..][..n - 1]))
  {
    assert emissions[..n] == [emissions[0]] + emissions[1..][..n - 1];
    FilterConcat([emissions[0]], emissions[1..][..n - 1], IsAction());
  }

  /** Each wanted action was performed, one after the other. */
  ghost predicate Performs(done: seq<Event>, agent: Agent, wanted: seq<Emission>) {
    |done| == |wanted| && forall i :: 0 <= i < |done| ==> Acts(done[i], agent, wanted[i])
  }

  lemma PerformsOn(a: seq<Event>, b: seq<Event>, agent: Agent, v: seq<Emission>, w: seq<Emission>)
    requires Performs(a, agent, v) && Performs(b, agent, w)
    ensures Performs(a + b, agent, v + w)
  {
    hide Acts;
    forall i | 0 <= i < |a + b| ensures Acts((a + b)[i], agent, (v + w)[i]) {
      if i >= |a| {
        assert (a + b)[i] == b[i - |a|] && (v + w)[i] == w[i - |a|];
      }
    }
  }

  /** As many emissions as `heard` were taken: the actions among them are performed, in their order,
      and all of them are paid for. */
  ghost predicate Took(s: Setup, x: Session, y: Session, agent: Agent, heard: seq<Emission>, done: seq<Event>) {
    && Added(s, x, y, done) && Performs(done, agent, Wanted(heard))
    && SameSpending(y.core.world.resources, x.core.world.resources.Plus(Costs(heard)))
  }

  lemma TookNone(s: Setup, x: Session, agent: Agent, emissions: seq<Emission>)
    ensures Took(s, x, x, agent, emissions[..0], [])
  {
    NothingAdded(s, x, x);
    hide Added;
    assert Costs(emissions[..0]) == NoResources;
  }

  lemma TookMore(s: Setup, x: Session, y: Session, z: Session, agent: Agent, emissions: seq<Emission>, n: nat,
                 first: seq<Event>, more: seq<Event>)
    requires 0 < n <= |emissions| && Added(s, x, y, first)
    requires SameSpending(y.core.world.resources, x.core.world.resources.Plus(emissions[0].delta))
    requires if emissions[0].kind.EmitAction? then |first| == 1 && Acts(first[0], agent, emissions[0]) else first == []
    requires Took(s, y, z, agent, emissions[1..][..n - 1], more)
    ensures Took(s, x, z, agent, emissions[..n], first + more)
  {
    AddedOn(s, x, y, z, first, more);
    WantedCons(emissions, n);
    SpentOn(x.core.world.resources, y.core.world.resources, z.core.world.resources, emissions[0].delta, Costs(emissions[1..][..n - 1]));
    hide Added, Acts, Wanted, Costs, SameSpending, ResourceDelta.Plus;
    PerformsOn(first, more, agent, if emissions[0].kind.EmitAction? then [emissions[0]] else [], Wanted(emissions[1..][..n - 1]));
  }

  /** In turns: of what an agent says as much is heard, from the first on, as it takes to finish the
      episode, or all of it. */
  lemma {:induction false} TurnActs(s: Setup, m: Minds, x: Session, agent: Agent, emissions: seq<Emission>, collected: seq<Action>)
      returns (done: seq<Event>, heard: nat)
    requires !s.driver.ParallelDriven?
    ensures var r := EnvStream(s, m, x, agent, emissions, collected);
      && heard <= |emissions| && Took(s, x, r.0, agent, emissions[..heard], done) && r.1 == collected
      && (heard < |emissions| ==> r.0.core.world.finished && heard > 0 && emissions[heard - 1].kind.EmitAction?)
    decreases |emissions|
  {
    hide EnvCommit, Took, Added, Acts, ResourceDelta.Plus;
    done, heard := [], 0;
    TookNone(s, x, agent, emissions);
    if |emissions| > 0 {
      var em, rest := emissions[0], emissions[1..];
      var y := x.(core := EnvCharge(x.core, em));
      NothingAdded(s, x, y);
      var first: seq<Event> := [];
      var z := y;
      if em.kind.EmitAction? {
        var e := CommitActs(s, m, y, ActionOf(agent, em));
        ActionDoes(agent, em);
        assert Acts(e, agent, em) by { ItActs(e, agent, em); }
        z, first := EnvCommit(s, m, y, ActionOf(agent, em)), [e];
        AddedOn(s, x, y, z, [], [e]);
        assert [] + [e] == [e];
      }
      TookNone(s, z, agent, rest);
      TookMore(s, x, z, z, agent, emissions, 1, first, []);
      assert first + [] == first;
      done, heard := first, 1;
      if !em.kind.EmitAction? || !z.core.world.finished {
        var more, n := TurnActs(s, m, z, agent, rest, collected);
        TookMore(s, x, z, EnvStream(s, m, z, agent, rest, collected).0, agent, emissions, n + 1, first, more);
        done, heard := first + more, n + 1;
      }
    }
  }

  lemma ItActs(e: Event, agent: Agent, em: Emission)
    requires e.kind.ActionTaken? && e.actor == agent && e.delta == NoResources
    requires e.body == Acted(ActionOf(agent, em).kind, ActionOf(agent, em).args)
    ensures Acts(e, agent, em)
  {
  }

  /** Actions to be performed together: those collected before, and those an agent wants. */
  ghost predicate Gathered(more: seq<Action>, agent: Agent, wanted: seq<Emission>) {
    && |more| == |wanted|
    && forall i :: 0 <= i < |more| ==> more[i].actor == agent && Does(more[i].kind, more[i].args, wanted[i].action)
  }

  lemma GatheredOn(a: seq<Action>, b: seq<Action>, agent: Agent, v: seq<Emission>, w: seq<Emission>)
    requires Gathered(a, agent, v) && Gathered(b, agent, w)
    ensures Gathered(a + b, agent, v + w)
  {
    hide Does;
    forall i | 0 <= i < |a + b|
      ensures (a + b)[i].actor == agent && Does((a + b)[i].kind, (a + b)[i].args, (v + w)[i].action)
    {
      if i >= |a| {
        assert (a + b)[i] == b[i - |a|] && (v + w)[i] == w[i - |a|];
      }
    }
  }

  lemma OneGathered(agent: Agent, em: Emission)
    ensures Gathered([ActionOf(agent, em)], agent, [em])
  {
    ActionDoes(agent, em);
  }

  /** Everything that was said was paid for, its actions collected in their order, and nothing else happened. */
  ghost predicate Heard(x: Session, y: Session, agent: Agent, emissions: seq<Emission>, more: seq<Action>) {
    && Gathered(more, agent, Wanted(emissions))
    && y.core.journal == x.core.journal && y.driver == x.driver && y.memos == x.memos && y.sinceCheckpoint == x.sinceCheckpoint
    && y.core.world == x.core.world.(resources := y.core.world.resources)
    && SameSpending(y.core.world.resources, x.core.world.resources.Plus(Costs(emissions)))
  }

  lemma HeardFirst(x: Session, y: Session, z: Session, agent: Agent, emissions: seq<Emission>, first: seq<Action>, others: seq<Action>)
    requires |emissions| > 0 && y == x.(core := EnvCharge(x.core, emissions[0]))
    requires first == (if emissions[0].kind.EmitAction? then [ActionOf(agent, emissions[0])] else [])
    requires Heard(y, z, agent, emissions[1..], others)
    ensures Heard(x, z, agent, emissions, first + others)
  {
    var em, rest := emissions[0], emissions[1..];
    assert SameSpending(y.core.world.resources, x.core.world.resources.Plus(em.delta));
    hide Wanted, Costs, ResourceDelta.Plus, SameSpending, Gathered, ActionOf;
    assert rest[..|rest|] == rest && emissions[..|emissions|] == emissions;
    WantedCons(emissions, |emissions|);
    SpentOn(x.core.world.resources, y.core.world.resources, z.core.world.resources, em.delta, Costs(rest));
    if em.kind.EmitAction? {
      OneGathered(agent, em);
      GatheredOn(first, others, agent, [em], Wanted(rest));
    } else {
      assert [] + others == others && [] + Wanted(rest) == Wanted(rest);
    }
  }

  /** All together: what an agent says is heard, and no more. */
  lemma {:induction false} TurnGathers(s: Setup, m: Minds, x: Session, agent: Agent, emissions: seq<Emission>, collected: seq<Action>)
      returns (more: seq<Action>)
    requires s.driver.ParallelDriven?
    ensures var r := EnvStream(s, m, x, agent, emissions, collected);
      r.1 == collected + more && Heard(x, r.0, agent, emissions, more)
    decreases |emissions|
  {
    hide Heard, EnvStream, EnvCharge, ActionOf;
    if |emissions| == 0 {
      more := [];
      NothingHeard(s, m, x, agent, emissions, collected);
    } else {
      var em, rest := emissions[0], emissions[1..];
      var y := x.(core := EnvCharge(x.core, em));
      var first := if em.kind.EmitAction? then [ActionOf(agent, em)] else [];
      StreamOn(s, m, x, agent, emissions, collected, y, first);
      var others := TurnGathers(s, m, y, agent, rest, collected + first);
      more := first + others;
      HeardFirst(x, y, EnvStream(s, m, y, agent, rest, collected + first).0, agent, emissions, first, others);
      assert collected + first + others == collected + (first + others);
    }
  }

  lemma NothingHeard(s: Setup, m: Minds, x: Session, agent: Agent, emissions: seq<Emission>, collected: seq<Action>)
    requires |emissions| == 0
    ensures EnvStream(s, m, x, agent, emissions, collected) == (x, collected + []) && Heard(x, x, agent, emissions, [])
  {
    hide EnvCommit, EnvCharge;
    assert collected + [] == collected;
  }

  lemma StreamOn(s: Setup, m: Minds, x: Session, agent: Agent, emissions: seq<Emission>, collected: seq<Action>, y: Session, first: seq<Action>)
    requires s.driver.ParallelDriven? && |emissions| > 0 && y == x.(core := EnvCharge(x.core, emissions[0]))
    requires first == (if emissions[0].kind.EmitAction? then [ActionOf(agent, emissions[0])] else [])
    ensures EnvStream(s, m, x, agent, emissions, collected) == EnvStream(s, m, y, agent, emissions[1..], collected + first)
  {
    hide EnvCharge, ActionOf, EnvCommit;
    assert collected + [] == collected;
  }

  /** An agent's turn in a tick: it is asked under the next number, with what it remembers and the
      request of the tick; it remembers what it answers with, the others what they did. */
  lemma AgentIsAsked(s: Setup, m: Minds, x: Session, agent: Agent, collected: seq<Action>)
      returns (done: seq<Event>, heard: nat, more: seq<Action>)
    ensures var (y, c) := EnvTurn(s, m, x, agent, collected);
      var n := x.driver.invocations + 1;
      var reply := m.invoke(agent, MemoOf(x, agent), EnvRequest(s, x, agent, n));
      && c == collected + more && y.driver == x.driver.(invocations := n)
      && y.memos.Keys == x.memos.Keys + {agent} && y.memos[agent] == reply.memo
      && (forall a :: a in x.memos && a != agent ==> y.memos[a] == x.memos[a])
      && heard <= |reply.emissions| && (heard < |reply.emissions| ==> y.core.world.finished && heard > 0)
      && SameSpending(y.core.world.resources, x.core.world.resources.Plus(Costs(reply.emissions[..heard])))
      && Utterances(y.core.Events()) == Utterances(x.core.Events()) + done && Paced(s, x, y)
      && y.core.world.dropped == x.core.world.dropped
      && if s.driver.ParallelDriven? then
           done == [] && heard == |reply.emissions| && Gathered(more, agent, Wanted(reply.emissions))
         else
           more == [] && Performs(done, agent, Wanted(reply.emissions[..heard]))
  {
    hide EnvStream, EnvRequest, MemoOf, Utterances, Deliveries, Noted, Paced, Acts, Wanted, Costs, SameSpending, ResourceDelta.Plus, Gathered, Performs;
    var n := x.driver.invocations + 1;
    var reply := m.invoke(agent, MemoOf(x, agent), EnvRequest(s, x, agent, n));
    var y := x.(driver := x.driver.(invocations := n), memos := x.memos[agent := reply.memo]);
    done, more, heard := [], [], |reply.emissions|;
    NoStep(s, x, y);
    if s.driver.ParallelDriven? {
      more := TurnGathers(s, m, y, agent, reply.emissions, collected);
      var z := EnvStream(s, m, y, agent, reply.emissions, collected).0;
      NoStep(s, x, z);
      assert reply.emissions[..heard] == reply.emissions;
      assert Utterances(x.core.Events()) + [] == Utterances(x.core.Events());
    } else {
      done, heard := TurnActs(s, m, y, agent, reply.emissions, collected);
      PacedOn(s, x, y, EnvStream(s, m, y, agent, reply.emissions, collected).0);
      assert collected + [] == collected;
    }
  }

  lemma PerformedBy(done: seq<Event>, agent: Agent, wanted: seq<Emission>)
    requires Performs(done, agent, wanted)
    ensures forall i :: 0 <= i < |done| ==> done[i].actor == agent
  {
  }

  /** Each was done by the agent at this place in the list, and places do not go down. */
  ghost predicate InTurn(done: seq<Event>, who: seq<nat>, agents: seq<Agent>) {
    && |who| == |done| && (forall i :: 0 <= i < |done| ==> who[i] < |agents| && done[i].actor == agents[who[i]])
    && forall i, j :: 0 <= i < j < |who| ==> who[i] <= who[j]
  }

  lemma InTurnNext(first: seq<Event>, more: seq<Event>, who: seq<nat>, agents: seq<Agent>) returns (all: seq<nat>)
    requires |agents| > 0 && (forall i :: 0 <= i < |first| ==> first[i].actor == agents[0]) && InTurn(more, who, agents[1..])
    ensures InTurn(first + more, all, agents)
  {
    all := seq(|first|, i => 0) + seq(|who|, i requires 0 <= i < |who| => who[i] + 1);
    forall i | 0 <= i < |first + more| ensures all[i] < |agents| && (first + more)[i].actor == agents[all[i]] {
      if i >= |first| {
        assert all[i] == who[i - |first|] + 1 && (first + more)[i] == more[i - |first|];
      }
    }
  }

  /** The agents of a tick are asked one after the other: all of them, or up to the one that finishes
      the episode. Their actions are performed in that order. */
  lemma {:induction false} AskedInTurn(s: Setup, m: Minds, x: Session, agents: seq<Agent>, collected: seq<Action>)
      returns (asked: nat, done: seq<Event>, who: seq<nat>)
    ensures var y := EnvAgents(s, m, x, agents, collected).0;
      && asked <= |agents| && (asked < |agents| ==> y.core.world.finished && asked > 0)
      && y.driver == x.driver.(invocations := x.driver.invocations + asked)
      && Utterances(y.core.Events()) == Utterances(x.core.Events()) + done && InTurn(done, who, agents)
      && Paced(s, x, y) && y.core.world.dropped == x.core.world.dropped
    decreases |agents|
  {
    hide EnvTurn, Paced, Performs, Gathered, Costs, Wanted, SameSpending, ResourceDelta.Plus, MemoOf, EnvRequest, Utterances, InTurn;
    asked, done, who := 0, [], [];
    if |agents| == 0 {
      NoStep(s, x, x);
      NobodyInTurn(agents);
      assert Utterances(x.core.Events()) + [] == Utterances(x.core.Events());
    } else {
      var first, heard, gathered := AgentIsAsked(s, m, x, agents[0], collected);
      var (y, c) := EnvTurn(s, m, x, agents[0], collected);
      FirstInTurn(s, m, x, agents[0], first, heard);
      if y.core.world.finished {
        NobodyInTurn(agents[1..]);
        asked, done := 1, first;
        who := InTurnNext(first, [], [], agents);
        assert first + [] == first;
      } else {
        var n, more, others := AskedInTurn(s, m, y, agents[1..], c);
        asked, done := n + 1, first + more;
        who := InTurnNext(first, more, others, agents);
        PacedOn(s, x, y, EnvAgents(s, m, y, agents[1..], c).0);
        assert Utterances(x.core.Events()) + first + more == Utterances(x.core.Events()) + (first + more);
      }
    }
  }

  lemma NobodyInTurn(agents: seq<Agent>)
    ensures InTurn([], [], agents)
  {
  }

  lemma FirstInTurn(s: Setup, m: Minds, x: Session, agent: Agent, done: seq<Event>, heard: nat)
    requires var reply := m.invoke(agent, MemoOf(x, agent), EnvRequest(s, x, agent, x.driver.invocations + 1));
      heard <= |reply.emissions| && (done == [] || Performs(done, agent, Wanted(reply.emissions[..heard])))
    ensures forall i :: 0 <= i < |done| ==> done[i].actor == agent
  {
    if done != [] {
      PerformedBy(done, agent, Wanted(m.invoke(agent, MemoOf(x, agent), EnvRequest(s, x, agent, x.driver.invocations + 1)).emissions[..heard]));
    }
  }

  lemma {:induction false} CommitAllPaced(s: Setup, m: Minds, x: Session, actions: seq<Action>)
    ensures var y := EnvCommitAll(s, m, x, actions);
      && Paced(s, x, y) && y.driver == x.driver && y.core.world.dropped == x.core.world.dropped
    decreases |actions|
  {
    hide EnvCommit, Paced, Utterances, Deliveries, SameSpending;
    NoStep(s, x, x);
    if |actions| > 0 {
      var e := CommitActs(s, m, x, actions[0]);
      var y := EnvCommit(s, m, x, actions[0]);
      if !y.core.world.finished {
        CommitAllPaced(s, m, y, actions[1..]);
        PacedOn(s, x, y, EnvCommitAll(s, m, y, actions[1..]));
      }
    }
  }

  /** In an environment, too, a checkpoint is written every so many steps: the actions performed. */
  lemma {:induction false} EnvPaced(s: Setup, m: Minds, x: Session)
    requires s.clockStep >= 1
    ensures Paced(s, x, EnvLoop(s, m, x).0)
    decreases if x.core.journal.sequence < s.limits.maxEvents then s.limits.maxEvents - x.core.journal.sequence else 0
  {
    hide EnvAgents, EnvCommitAll, Paced, Sort, ActionOrder, AdvanceTo, InTurn, Utterances;
    NoStep(s, x, x);
    if !x.core.world.finished && x.core.world.time <= s.limits.maxLogicalTime && x.core.journal.sequence < s.limits.maxEvents {
      var agents := ActiveAgents(s, x.core.world.dropped);
      var asked, done, who := AskedInTurn(s, m, x, agents, []);
      var (y, c) := EnvAgents(s, m, x, agents, []);
      var z := Tick(s, m, x);
      if s.driver.ParallelDriven? {
        CommitAllPaced(s, m, y, Sort(c, ActionOrder()));
        PacedOn(s, x, y, z);
      }
      var end := EndRound(s, z);
      ClockPaced(s, z, end, z.core.world.time + s.clockStep);
      PacedOn(s, x, z, end);
      ClockMoves(z.core, z.core.world.time + s.clockStep);
      EnvPaced(s, m, end);
      PacedOn(s, x, end, EnvLoop(s, m, end).0);
    }
  }

  lemma ClockMoves(c: Core, time: int)
    requires time > c.world.time
    ensures AdvanceTo(c, time).journal.sequence > c.journal.sequence
  {
  }
}
