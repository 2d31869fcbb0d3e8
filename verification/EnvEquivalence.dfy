/** Resume equivalence of environment runs: for a checkpoint anywhere in a tick, in both modes,
    exactly when the resumed attempt comes to the same result. */
module EnvEquivalence {
  import opened Wrappers
  import opened Contracts
  import opened KernelState
  import opened Sorting
  import opened Scheduler
  import opened Store
  import opened Journals
  import opened WorldRules
  import opened DriverRules
  import opened RunRules
  import opened Recovery
  import opened Growth
  import opened Equivalence
  import opened Resumption
  import opened EnvResumption
  import opened Kinship
  import opened TickActions
  import opened TickAgain

  // ---- akin sessions with the same cursors ----

  lemma MemosEqual(x: Session, y: Session)
    requires forall b :: SameOn(x, y, b)
    ensures y.memos == x.memos
  {
    forall b ensures (b in x.memos <==> b in y.memos) && (b in x.memos ==> y.memos[b] == x.memos[b]) {
      assert SameOn(x, y, b);
    }
  }

  lemma TickAkin(s: Setup, m: Minds, m': Minds, x: Session, y: Session, r: ResourceDelta)
    requires Akin(s, x, y, r) && SameAnswers(m, m) && SameAnswers(m, m') && y.memos == x.memos
    ensures Akin(s, Tick(s, m, x), Tick(s, m', y), r) && Tick(s, m', y).memos == Tick(s, m, x).memos
  {
    AkinWorld(s, x, y, r);
    var agents := ActiveAgents(s, x.core.world.dropped);
    assert forall b :: SameOn(x, y, b);
    hide EnvAgents, EnvCommitAll, Akin, SameAnswers, SameOn, ActiveAgents;
    AgentsAkin(s, m, m', x, y, r, agents, []);
    var (u, collected) := EnvAgents(s, m, x, agents, []);
    var v := EnvAgents(s, m', y, agents, []).0;
    MemosEqual(u, v);
    var actions := Sort(collected, ActionOrder());
    AkinCommitAll(s, m, m', u, v, r, actions);
    CommitAllKeepsMemos(s, m, u, actions);
    CommitAllKeepsMemos(s, m', v, actions);
  }

  /** They go on to do the same work, and what one spent beyond the other stays the difference. */
  lemma {:induction false} AkinLoop(s: Setup, m: Minds, m': Minds, x: Session, y: Session, r: ResourceDelta)
    requires Akin(s, x, y, r) && SameAnswers(m, m) && SameAnswers(m, m') && y.memos == x.memos && s.clockStep >= 1
    requires EnvLoop(s, m, x).0.core.journal.sequence < s.limits.maxEvents
    requires EnvLoop(s, m', y).0.core.journal.sequence < s.limits.maxEvents
    ensures var ((u, o), (v, o')) := (EnvLoop(s, m, x), EnvLoop(s, m', y));
      Akin(s, u, v, r) && v.memos == u.memos && o' == o
    decreases if x.core.journal.sequence < s.limits.maxEvents then s.limits.maxEvents - x.core.journal.sequence else 0
  {
    hide Akin, Tick, EndRound, SameAnswers;
    EnvLoopOnward(s, m, x);
    EnvLoopOnward(s, m', y);
    AkinWorld(s, x, y, r);
    if !x.core.world.finished && x.core.world.time <= s.limits.maxLogicalTime {
      var w, w' := Tick(s, m, x), Tick(s, m', y);
      TickEffect(s, w);
      TickAkin(s, m, m', x, y, r);
      AkinEnd(s, w, w', r);
      assert EndRound(s, w).memos == w.memos && EndRound(s, w').memos == w'.memos by { EndKeepsMemos(s, w); EndKeepsMemos(s, w'); }
      AkinLoop(s, m, m', EndRound(s, w), EndRound(s, w'), r);
    }
  }

  lemma EndKeepsMemos(s: Setup, x: Session)
    ensures EndRound(s, x).memos == x.memos
  {
  }

  /** The result is the same exactly if nothing was spent beyond. */
  lemma SpendingTells(s: Setup, u: Session, v: Session, r: ResourceDelta)
    requires Akin(s, u, v, r) && v.memos == u.memos
    ensures SameResult(s, u, v) <==> r == NoResources
  {
    AkinWorld(s, u, v, r);
    PlusCancels(u.core.world.resources, r);
    AlikeIsAkin(s, u, v);
    hide Akin, Deeds, Canon, EnvAlike, ResourceDelta.Plus;
    if r == NoResources {
      AlikeIsSameResult(s, u, v);
    }
  }

  // ---- akin sessions in which an agent remembers something else ----

  /** Cursors that differ are not made equal by asking the same. */
  ghost predicate Remembers(m: Minds) {
    forall agent: Agent, memo: Memo, memo': Memo, r: Request ::
      memo != memo' ==> m.invoke(agent, memo, r).memo != m.invoke(agent, memo', r).memo
  }

  ghost predicate Apart(x: Session, y: Session, agent: Agent) {
    agent in x.memos && agent in y.memos && x.memos[agent] != y.memos[agent]
  }

  lemma BothAnswer(m: Minds, m': Minds)
    requires SameAnswers(m, m) && SameAnswers(m, m')
    ensures SameAnswers(m', m')
    ensures forall agent: Agent, memo: Memo, r: Request :: m'.invoke(agent, memo, r) == m.invoke(agent, memo, r)
  {
    forall agent: Agent, memo: Memo, r: Request ensures m'.invoke(agent, memo, r) == m.invoke(agent, memo, r) {
      assert r.(invocation := r.invocation) == r;
    }
    forall agent: Agent, memo: Memo, r: Request, n: nat ensures m'.invoke(agent, memo, r.(invocation := n)) == m'.invoke(agent, memo, r) {
      assert m'.invoke(agent, memo, r.(invocation := n)) == m.invoke(agent, memo, r);
    }
  }

  lemma RepliesApart(s: Setup, m: Minds, m': Minds, x: Session, y: Session, r: ResourceDelta, agent: Agent)
    requires Akin(s, x, y, r) && SameAnswers(m, m) && SameAnswers(m, m') && Remembers(m) && Apart(x, y, agent)
    ensures ReplyOf(s, m, x, agent).memo != ReplyOf(s, m', y, agent).memo
  {
    BothAnswer(m, m');
    SameRequest(s, x, y, r, agent, 0);
    hide Akin, EnvRequest, SameAnswers;
    assert EnvRequest(s, x, agent, 0).(invocation := 0) == EnvRequest(s, x, agent, 0) by { RequestNumber(s, x, agent); }
  }

  lemma RequestNumber(s: Setup, x: Session, agent: Agent)
    ensures EnvRequest(s, x, agent, 0).(invocation := 0) == EnvRequest(s, x, agent, 0)
  {
  }

  /** A turn in turn-taking mode, as a stream. */
  lemma TurnIsStream(s: Setup, m: Minds, x: Session, agent: Agent, collected: seq<Action>)
    requires SameAnswers(m, m) && !s.driver.ParallelDriven?
    ensures var reply, u := ReplyOf(s, m, x, agent), EnvTurn(s, m, x, agent, collected).0;
      && u.memos == x.memos[agent := reply.memo]
      && Akin(s, EnvCommitAll(s, m, x, Offered(agent, reply.emissions)), u, Spent(s, m, x, agent, reply.emissions))
      && ActionsOf(u.core) == ActionsOf(x.core) + Performed(s, m, x, Offered(agent, reply.emissions))
  {
    var reply := ReplyOf(s, m, x, agent);
    var y := AskedIn(x, agent, reply.memo);
    var offered := Offered(agent, reply.emissions);
    AkinAside(s, x, x);
    hide EnvTurn, EnvStream, Akin, ReplyOf, SameAnswers, EnvCommitAll, Offered, Spent, ActionsOf, Performed, ResourceDelta.Plus;
    TurnIs(s, m, m, x, x, NoResources, agent, collected);
    StreamKeepsMemos(s, m, y, agent, reply.emissions, collected);
    StreamIsCommits(s, m, y, agent, reply.emissions, collected);
    AkinAsked(s, x, x, NoResources, agent, reply.memo);
    AkinSpent(s, m, m, x, y, NoResources, agent, reply.emissions);
    AkinCommitAll(s, m, m, x, y, NoResources, offered);
    var u := EnvStream(s, m, y, agent, reply.emissions, collected).0;
    AkinOn(s, EnvCommitAll(s, m, x, offered), EnvCommitAll(s, m, y, offered), u, NoResources, Spent(s, m, x, agent, reply.emissions));
    PlusNone(Spent(s, m, x, agent, reply.emissions));
    CommitAllShows(s, m, x, offered);
    AkinSilent(s, EnvCommitAll(s, m, x, offered), u, Spent(s, m, x, agent, reply.emissions));
  }

  /** Turns in which the same actions are performed. */
  lemma TurnsMeet(s: Setup, m: Minds, m': Minds, x: Session, y: Session, r: ResourceDelta, agent: Agent, collected: seq<Action>)
      returns (q: ResourceDelta)
    requires !s.driver.ParallelDriven? && Akin(s, x, y, r) && SameAnswers(m, m) && SameAnswers(m', m')
    requires Performed(s, m, x, Offered(agent, ReplyOf(s, m, x, agent).emissions))
          == Performed(s, m', y, Offered(agent, ReplyOf(s, m', y, agent).emissions))
    ensures Akin(s, EnvTurn(s, m, x, agent, collected).0, EnvTurn(s, m', y, agent, collected).0, q)
  {
    hide EnvTurn, Akin, ReplyOf, SameAnswers, EnvCommitAll, Offered, Spent, ActionsOf, Performed, ResourceDelta.Plus;
    var e, e' := ReplyOf(s, m, x, agent).emissions, ReplyOf(s, m', y, agent).emissions;
    TurnIsStream(s, m, x, agent, collected);
    TurnIsStream(s, m', y, agent, collected);
    AkinPerformed(s, m, m', x, y, r, Offered(agent, e), Offered(agent, e'));
    var a, b := EnvCommitAll(s, m, x, Offered(agent, e)), EnvCommitAll(s, m', y, Offered(agent, e'));
    var u, v := EnvTurn(s, m, x, agent, collected).0, EnvTurn(s, m', y, agent, collected).0;
    AkinBack(s, a, u, Spent(s, m, x, agent, e));
    AkinOn(s, u, a, b, Minus(Spent(s, m, x, agent, e)), r);
    AkinOn(s, u, b, v, Minus(Spent(s, m, x, agent, e)).Plus(r), Spent(s, m', y, agent, e'));
    q := Minus(Spent(s, m, x, agent, e)).Plus(r).Plus(Spent(s, m', y, agent, e'));
  }

  lemma ApartAfter(s: Setup, m: Minds, m': Minds, x: Session, y: Session, r: ResourceDelta, agent: Agent, collected: seq<Action>, a: Agent)
    requires !s.driver.ParallelDriven? && Akin(s, x, y, r)
    requires SameAnswers(m, m) && SameAnswers(m, m') && Remembers(m) && Apart(x, y, a)
    ensures Apart(EnvTurn(s, m, x, agent, collected).0, EnvTurn(s, m', y, agent, collected).0, a)
  {
    hide EnvTurn, Akin, ReplyOf, SameAnswers, Remembers, ActionsOf, Performed, Offered, Spent, EnvCommitAll;
    BothAnswer(m, m');
    TurnIsStream(s, m, x, agent, collected);
    TurnIsStream(s, m', y, agent, collected);
    if a == agent {
      RepliesApart(s, m, m', x, y, r, agent);
    }
  }

  /** If agents in turn leave the same work in the log of akin sessions, these stay akin, and agents apart stay apart. */
  lemma {:induction false} AgentsApart(
      s: Setup, m: Minds, m': Minds, x: Session, y: Session, r: ResourceDelta, agents: seq<Agent>, collected: seq<Action>, a: Agent)
      returns (q: ResourceDelta)
    requires !s.driver.ParallelDriven? && Akin(s, x, y, r) && !x.core.world.finished && Distinct(agents)
    requires SameAnswers(m, m) && SameAnswers(m, m') && Remembers(m) && Apart(x, y, a)
    requires ActionsOf(EnvAgents(s, m, x, agents, collected).0.core) == ActionsOf(EnvAgents(s, m', y, agents, collected).0.core)
    ensures var u, v := EnvAgents(s, m, x, agents, collected).0, EnvAgents(s, m', y, agents, collected).0;
      Akin(s, u, v, q) && Apart(u, v, a)
    decreases |agents|
  {
    hide EnvTurn, Akin, ReplyOf, SameAnswers, Remembers, ActionsOf, Performed, Offered, Spent, EnvCommitAll;
    if |agents| == 0 {
      q := r;
    } else {
      var b := agents[0];
      BothAnswer(m, m');
      var (x1, c) := EnvTurn(s, m, x, b, collected);
      var (y1, d) := EnvTurn(s, m', y, b, collected);
      SameFirst(s, m, m', x, y, r, agents, collected);
      q := TurnsMeet(s, m, m', x, y, r, b, collected);
      ApartAfter(s, m, m', x, y, r, b, collected, a);
      AkinWorld(s, x1, y1, q);
      SameCollected(s, m, x, b, collected);
      SameCollected(s, m', y, b, collected);
      assert forall i :: 0 <= i < |agents[1..]| ==> agents[1..][i] == agents[i + 1];
      if !x1.core.world.finished {
        q := AgentsApart(s, m, m', x1, y1, q, agents[1..], c, a);
      }
    }
  }

  lemma SameCollected(s: Setup, m: Minds, x: Session, agent: Agent, collected: seq<Action>)
    requires !s.driver.ParallelDriven?
    ensures EnvTurn(s, m, x, agent, collected).1 == collected
  {
    var n := x.driver.invocations + 1;
    var reply := m.invoke(agent, MemoOf(x, agent), EnvRequest(s, x, agent, n));
    var y := x.(driver := x.driver.(invocations := n), memos := x.memos[agent := reply.memo]);
    hide EnvStream;
    StreamIsCommits(s, m, y, agent, reply.emissions, collected);
  }

  /** The same work by all of them is the same work by the first. */
  lemma SameFirst(s: Setup, m: Minds, m': Minds, x: Session, y: Session, r: ResourceDelta, agents: seq<Agent>, collected: seq<Action>)
    requires !s.driver.ParallelDriven? && Akin(s, x, y, r) && |agents| > 0 && Distinct(agents)
    requires SameAnswers(m, m) && SameAnswers(m', m')
    requires ActionsOf(EnvAgents(s, m, x, agents, collected).0.core) == ActionsOf(EnvAgents(s, m', y, agents, collected).0.core)
    ensures Performed(s, m, x, Offered(agents[0], ReplyOf(s, m, x, agents[0]).emissions))
         == Performed(s, m', y, Offered(agents[0], ReplyOf(s, m', y, agents[0]).emissions))
  {
    var b := agents[0];
    AkinSilent(s, x, y, r);
    HisAlone(s, m, x, b, ReplyOf(s, m, x, b).emissions);
    HisAlone(s, m', y, b, ReplyOf(s, m', y, b).emissions);
    hide EnvTurn, EnvAgents, Akin, ReplyOf, SameAnswers, ActionsOf, Performed, Offered, Spent, EnvCommitAll;
    var p := FirstAndRest(s, m, x, agents, collected);
    var q := FirstAndRest(s, m', y, agents, collected);
    var mine, his := Performed(s, m, x, Offered(b, ReplyOf(s, m, x, b).emissions)), Performed(s, m', y, Offered(b, ReplyOf(s, m', y, b).emissions));
    SameTails(ActionsOf(x.core), mine + p, his + q);
    assert b !in agents[1..];
    SameHeads(mine, p, his, q, b);
  }

  lemma FirstAndRest(s: Setup, m: Minds, x: Session, agents: seq<Agent>, collected: seq<Action>) returns (p: seq<Action>)
    requires !s.driver.ParallelDriven? && |agents| > 0 && SameAnswers(m, m)
    ensures ActionsOf(EnvAgents(s, m, x, agents, collected).0.core)
         == ActionsOf(x.core) + (Performed(s, m, x, Offered(agents[0], ReplyOf(s, m, x, agents[0]).emissions)) + p)
    ensures forall a :: a in p ==> a.actor in agents[1..]
  {
    hide EnvTurn, Akin, ReplyOf, SameAnswers, ActionsOf, Performed, Offered, Spent, EnvCommitAll;
    TurnIsStream(s, m, x, agents[0], collected);
    var (x1, c) := EnvTurn(s, m, x, agents[0], collected);
    p := [];
    if !x1.core.world.finished {
      p := AgentsShow(s, m, x1, agents[1..], c);
    }
    Regroup(ActionsOf(x.core), Performed(s, m, x, Offered(agents[0], ReplyOf(s, m, x, agents[0]).emissions)), p);
  }

  /** In parallel mode they stay akin and apart while they are asked. */
  lemma AskingApart(s: Setup, m: Minds, m': Minds, x: Session, y: Session, r: ResourceDelta, a: Agent)
      returns (u: Session, v: Session, q: ResourceDelta, offers: seq<Action>, others: seq<Action>)
    requires s.driver.ParallelDriven? && Akin(s, x, y, r) && !x.core.world.finished && Distinct(Active(s, x))
    requires SameAnswers(m, m) && SameAnswers(m, m') && Remembers(m) && Apart(x, y, a)
    ensures Akin(s, u, v, q) && Apart(u, v, a)
    ensures Tick(s, m, x) == EnvCommitAll(s, m, u, offers) && Tick(s, m', y) == EnvCommitAll(s, m', v, others)
  {
    AkinWorld(s, x, y, r);
    assert Active(s, y) == Active(s, x);
    hide Akin, ReplyOf, SameAnswers, Remembers, AskingSpends, Tick, EnvCommitAll, Offers, ResourceDelta.Plus, Active;
    BothAnswer(m, m');
    u := AllOver(s, m, x);
    v := AllOver(s, m', y);
    offers, others := Sort(Offers(s, m, x, Active(s, x)), ActionOrder()), Sort(Offers(s, m', y, Active(s, x)), ActionOrder());
    var c, d := AskingSpends(s, m, x, Active(s, x)), AskingSpends(s, m', y, Active(s, x));
    AkinBack(s, x, u, c);
    AkinOn(s, u, x, y, Minus(c), r);
    AkinOn(s, u, y, v, Minus(c).Plus(r), d);
    q := Minus(c).Plus(r).Plus(d);
    if a in Active(s, x) {
      RepliesApart(s, m, m', x, y, r, a);
    } else {
      assert SameOn(x, u, a) && SameOn(y, v, a);
    }
  }

  /** Ticks that leave the same work in the log of akin sessions with an agent apart. */
  lemma TickApart(s: Setup, m: Minds, m': Minds, x: Session, y: Session, r: ResourceDelta, a: Agent) returns (q: ResourceDelta)
    requires Akin(s, x, y, r) && !x.core.world.finished && Distinct(Active(s, x))
    requires SameAnswers(m, m) && SameAnswers(m, m') && Remembers(m) && Apart(x, y, a)
    requires Deeds(Tick(s, m, x).core.Events()) == Deeds(Tick(s, m', y).core.Events())
    ensures Akin(s, Tick(s, m, x), Tick(s, m', y), q) && Apart(Tick(s, m, x), Tick(s, m', y), a)
  {
    AkinWorld(s, x, y, r);
    assert Active(s, y) == Active(s, x);
    assert ActionsOf(Tick(s, m, x).core) == ActionsOf(Tick(s, m', y).core) by { hide Tick, Deeds; }
    hide Akin, SameAnswers, Remembers, Tick, EnvCommitAll, Active, EnvAgents, ActionsOf, Performed;
    if s.driver.ParallelDriven? {
      var u, v, p, offers, others := AskingApart(s, m, m', x, y, r, a);
      q := p;
      CommitAllShows(s, m, u, offers);
      CommitAllShows(s, m', v, others);
      AkinSilent(s, u, v, q);
      SameTails(ActionsOf(u.core), Performed(s, m, u, offers), Performed(s, m', v, others));
      AkinPerformed(s, m, m', u, v, q, offers, others);
      CommitAllKeepsMemos(s, m, u, offers);
      CommitAllKeepsMemos(s, m', v, others);
    } else {
      TickIsAgents(s, m, x);
      TickIsAgents(s, m', y);
      q := AgentsApart(s, m, m', x, y, r, Active(s, x), [], a);
    }
  }

  /** Runs whose logs end alike logged alike in their first ticks. */
  lemma SameTicks(s: Setup, m: Minds, m': Minds, x: Session, y: Session, w: Session, w': Session)
    requires s.clockStep >= 1 && Deeds(y.core.Events()) == Deeds(x.core.Events()) && y.core.world.time == x.core.world.time
    requires Stays(x.core, w.core) && Stays(y.core, w'.core)
    requires Deeds(EnvLoop(s, m, EndRound(s, w)).0.core.Events()) == Deeds(EnvLoop(s, m', EndRound(s, w')).0.core.Events())
    ensures Deeds(w.core.Events()) == Deeds(w'.core.Events())
  {
    hide Deeds, EnvLoop, EndRound, Stays, Filter;
    TickWork(s, m, x, w);
    TickWork(s, m', y, w');
    var before := Deeds(x.core.Events());
    SameSuffix(before, Deeds(w.core.Events()), Deeds(w'.core.Events()), Filter(before, At(x.core.world.time)));
  }

  /** Two runs that begin akin, with an agent that remembers something else: their results differ. */
  lemma {:induction false} LoopApart(s: Setup, m: Minds, m': Minds, x: Session, y: Session, r: ResourceDelta, a: Agent)
    requires Akin(s, x, y, r) && Distinct(s.AgentIds()) && s.clockStep >= 1
    requires SameAnswers(m, m) && SameAnswers(m, m') && Remembers(m) && Apart(x, y, a)
    requires EnvLoop(s, m, x).0.core.journal.sequence < s.limits.maxEvents
    requires EnvLoop(s, m', y).0.core.journal.sequence < s.limits.maxEvents
    ensures !SameResult(s, EnvLoop(s, m, x).0, EnvLoop(s, m', y).0)
    decreases if x.core.journal.sequence < s.limits.maxEvents then s.limits.maxEvents - x.core.journal.sequence else 0
  {
    hide Akin, Tick, EndRound, SameAnswers, Remembers, Deeds, Canon, Active;
    EnvLoopOnward(s, m, x);
    EnvLoopOnward(s, m', y);
    AkinWorld(s, x, y, r);
    if !x.core.world.finished && x.core.world.time <= s.limits.maxLogicalTime {
      var w, w' := Tick(s, m, x), Tick(s, m', y);
      TickEffect(s, w);
      TickStays(s, m, x);
      TickStays(s, m', y);
      if SameResult(s, EnvLoop(s, m, x).0, EnvLoop(s, m', y).0) {
        hide Stays;
        SameTicks(s, m, m', x, y, w, w');
        ActiveIsDistinct(s, x);
        var q := TickApart(s, m, m', x, y, r, a);
        AkinEnd(s, w, w', q);
        EndKeepsMemos(s, w);
        EndKeepsMemos(s, w');
        LoopApart(s, m, m', EndRound(s, w), EndRound(s, w'), q, a);
      }
    }
  }

  lemma ActiveIsDistinct(s: Setup, x: Session)
    requires Distinct(s.AgentIds())
    ensures Distinct(Active(s, x))
  {
    DistinctPart(s.AgentIds(), TakesPart(x.core.world.dropped));
  }

  // ---- the result ----

  /** Beginning over from where the captured state leaves the agents and the resources. */
  ghost predicate SameAgain(s: Setup, m: Minds, x: Session, rest: Rest) {
    SameActions(s, m, x, rest) && SameCursors(s, m, x, rest) && Extra(s, m, x, rest) == NoResources
  }

  lemma CursorsTell(s: Setup, m: Minds, x: Session, rest: Rest, left: Session, over: Session) returns (a: Agent)
    requires forall b :: b in Active(s, x) ==> b in x.memos
    requires forall b :: b in AskedAgain(s, x, rest) ==> b in Active(s, x)
    requires forall b ::
      && (b in AskedAgain(s, x, rest) ==> SameOn(x, left, b) && b in over.memos && over.memos[b] == ReplyOf(s, m, x, b).memo)
      && (b !in AskedAgain(s, x, rest) ==> SameOn(left, over, b))
    ensures if SameCursors(s, m, x, rest) then left.memos == over.memos else Apart(left, over, a)
  {
    hide ReplyOf, AskedAgain, Active;
    a := "";
    if SameCursors(s, m, x, rest) {
      forall b ensures SameOn(left, over, b) {
        if b in AskedAgain(s, x, rest) {
          assert SameOn(x, left, b);
        }
      }
      MemosEqual(left, over);
    } else {
      a :| a in AskedAgain(s, x, rest) && !(a in x.memos && ReplyOf(s, m, x, a).memo == x.memos[a]);
      assert SameOn(x, left, a);
    }
  }

  lemma AskedAreActive(s: Setup, x: Session, rest: Rest)
    requires Fits(s, rest, Active(s, x))
    ensures forall b :: b in AskedAgain(s, x, rest) ==> b in Active(s, x)
  {
    hide Active;
  }

  /** Two ticks from the same state, one finished and one begun over, and the runs from there. */
  lemma FromThereOn(s: Setup, m: Minds, m': Minds, x: Session, rest: Rest, again: Session)
    requires s.clockStep >= 1 && SameAnswers(m, m) && SameAnswers(m, m') && !x.core.world.finished
    requires Distinct(s.AgentIds()) && Fits(s, rest, Active(s, x)) && forall b :: b in Active(s, x) ==> b in x.memos
    requires EnvAlike(s, Tick(s, m, x), again)
    requires EnvLoop(s, m, EndRound(s, FinishTick(s, m, x, rest))).0.core.journal.sequence < s.limits.maxEvents
    requires EnvLoop(s, m', EndRound(s, again)).0.core.journal.sequence < s.limits.maxEvents
    ensures var ((u, o), (v, o')) := (EnvLoop(s, m, EndRound(s, FinishTick(s, m, x, rest))), EnvLoop(s, m', EndRound(s, again)));
      && (SameActions(s, m, x, rest) && SameCursors(s, m, x, rest) ==>
            (SameResult(s, u, v) <==> Extra(s, m, x, rest) == NoResources) && o' == o)
      && (SameActions(s, m, x, rest) && !SameCursors(s, m, x, rest) && Remembers(m) ==> !SameResult(s, u, v))
  {
    hide Akin, EnvLoop, EndRound, FinishTick, Tick, SameAnswers, Remembers, SameActions, SameCursors, SameResult, EnvAlike, Deeds, Active,
         AskedAgain, Extra, SameOn, Apart, Fits, ReplyOf;
    var left, over, r := FinishTick(s, m, x, rest), Tick(s, m, x), Extra(s, m, x, rest);
    if SameActions(s, m, x, rest) {
      ActiveIsDistinct(s, x);
      FinishedOrOver(s, m, x, rest);
      AskedAreActive(s, x, rest);
      var a := CursorsTell(s, m, x, rest, left, over);
      AlikeMemos(s, over, again);
      AkinThen(s, left, over, again, r);
      AkinEnd(s, left, again, r);
      EndKeepsMemos(s, left);
      EndKeepsMemos(s, again);
      if SameCursors(s, m, x, rest) {
        AkinLoop(s, m, m', EndRound(s, left), EndRound(s, again), r);
        SpendingTells(s, EnvLoop(s, m, EndRound(s, left)).0, EnvLoop(s, m', EndRound(s, again)).0, r);
      } else if Remembers(m) {
        StillApart(left, over, EndRound(s, left), EndRound(s, again), a);
        LoopApart(s, m, m', EndRound(s, left), EndRound(s, again), r, a);
      }
    }
  }

  lemma AlikeMemos(s: Setup, x: Session, y: Session)
    requires EnvAlike(s, x, y)
    ensures y.memos == x.memos
  {
    hide Like;
  }

  lemma StillApart(x: Session, y: Session, u: Session, v: Session, a: Agent)
    requires Apart(x, y, a) && u.memos == x.memos && v.memos == y.memos
    ensures Apart(u, v, a)
  {
  }

  /** What a resumed attempt comes to, checkpoint by checkpoint. The same work at the time of the
      checkpoint is logged if and only if the episode was over, or the agents, asked once more in
      the state captured, would offer the actions that were left of the tick. All is the same if
      they moreover remember what they remember already and spend what was left to be spent, and
      only then when the cursors are the same anyhow or agents remember for good what they were asked. */
  lemma ResumeExactly(s: Setup, m: Minds, m': Minds, z: Session, rest: Rest, t: Tables)
    requires s.clockStep >= 1 && SameAnswers(m, m) && SameAnswers(m, m') && Restorable(m, m', z.memos) && Stored(s, m, z, t)
    requires z.sinceCheckpoint == 0 && z.core.world.time <= s.limits.maxLogicalTime
    requires Distinct(s.AgentIds()) && Fits(s, rest, Active(s, z)) && forall b :: b in Active(s, z) ==> b in z.memos
    requires EnvGoOn(s, m, z, rest).0.core.journal.sequence < s.limits.maxEvents
    requires EnvComeBack(s, m, m', z, t).0.core.journal.sequence < s.limits.maxEvents
    ensures var ((u, o), (v, o')) := (EnvGoOn(s, m, z, rest), EnvComeBack(s, m, m', z, t));
      var x, now := SaveCheckpoint(s, m, z), z.core.world.time;
      && (z.core.world.finished ==> SameResult(s, u, v) && o' == o)
      && (!z.core.world.finished ==>
            (WorkAt(u.core.Events(), now) == WorkAt(v.core.Events(), now) <==> SameActions(s, m, x, rest)))
      && (!z.core.world.finished && SameAgain(s, m, x, rest) ==> SameResult(s, u, v) && o' == o)
      && (Remembers(m) || (SameActions(s, m, x, rest) ==> SameCursors(s, m, x, rest)) ==>
            (SameResult(s, u, v) <==> z.core.world.finished || SameAgain(s, m, x, rest)))
  {
    var x := SaveCheckpoint(s, m, z);
    var c := Capture(s, m, z);
    SavedFacts(s, m, z);
    hide EnvLoop, EndRound, FinishTick, Tick, SameAnswers, Remembers, SameActions, SameCursors, SameResult, EnvAlike, Deeds, Active, Extra,
         Fits, SaveCheckpoint, Capture, Announce, Rejoin, Restorable, Stored, WorkAt, EnvGoOn, EnvComeBack;
    EnvResume(s, m, m', z, rest, t);
    if !z.core.world.finished {
      SameTick(s, m, m', z, t);
      ActiveIsDistinct(s, x);
      FinishedOrOver(s, m, x, rest);
      var again := Tick(s, m', Announce(s, Rejoin(s, m', Opened(t), c), Some(c.sequence)));
      OverAgain(s, m, m', z, rest, t);
      FromThereOn(s, m, m', x, rest, again);
    }
  }

  lemma SavedFacts(s: Setup, m: Minds, z: Session)
    ensures var x := SaveCheckpoint(s, m, z); x.core.world == z.core.world && x.memos == z.memos && Active(s, x) == Active(s, z)
  {
    hide ActiveAgents;
  }

  lemma OverAgain(s: Setup, m: Minds, m': Minds, z: Session, rest: Rest, t: Tables)
    requires s.clockStep >= 1 && Restorable(m, m', z.memos) && Stored(s, m, z, t) && z.sinceCheckpoint == 0
    requires !z.core.world.finished && z.core.world.time <= s.limits.maxLogicalTime
    requires EnvComeBack(s, m, m', z, t).0.core.journal.sequence < s.limits.maxEvents
    ensures var c := Capture(s, m, z);
      EnvComeBack(s, m, m', z, t) == EnvLoop(s, m', EndRound(s, Tick(s, m', Announce(s, Rejoin(s, m', Opened(t), c), Some(c.sequence)))))
    ensures EnvGoOn(s, m, z, rest) == EnvLoop(s, m, EndRound(s, FinishTick(s, m, SaveCheckpoint(s, m, z), rest)))
  {
    var x, c := SaveCheckpoint(s, m, z), Capture(s, m, z);
    var y := Announce(s, Rejoin(s, m', Opened(t), c), Some(c.sequence));
    SavedFacts(s, m, z);
    RejoinInStep(s, m, m', z, t);
    AlikeWorld(s, x, y, |s.agents| + 1);
    hide InStep, Stored, Restorable, EnvLoop, EndRound, Tick, SaveCheckpoint, Capture, Announce, Rejoin, FinishTick;
    BeginsOver(s, m', y);
  }

  // ---- a checkpoint between two actions of agents that act or stay as they are ----

  /** The agent in whose turn the checkpoint was written does not act any more, and nothing collected is left. */
  ghost predicate DoneActing(rest: Rest) {
    match rest
    case InTurn(_, emissions, _) => !Acts(emissions)
    case AllAtOnce(actions) => actions == []
  }

  /** What the rest of the stream would still have spent. */
  function LeftToSpend(s: Setup, m: Minds, x: Session, rest: Rest): ResourceDelta {
    match rest
    case InTurn(agent, emissions, _) => Spent(s, m, x, agent, emissions)
    case AllAtOnce(_) => NoResources
  }

  lemma {:induction false} OffersOfNobody(s: Setup, m: Minds, x: Session, agents: seq<Agent>)
    ensures Offers(s, m, x, agents) == [] <==> NobodyActs(s, m, x, agents)
  {
    if |agents| > 0 {
      OfferedIsHis(agents[0], ReplyOf(s, m, x, agents[0]).emissions);
      hide Offered, ReplyOf, NobodyActs, Acts;
      NobodyOfFewer(s, m, x, agents);
      OffersOfNobody(s, m, x, agents[1..]);
    }
  }

  lemma {:induction false} InactiveSpendsNothing(s: Setup, m: Minds, x: Session, agent: Agent, emissions: seq<Emission>)
    requires Inactive(emissions)
    ensures Spent(s, m, x, agent, emissions) == NoResources
  {
    if |emissions| > 0 {
      assert emissions[0] in emissions;
      assert forall em :: em in emissions[1..] ==> em in emissions;
      InactiveSpendsNothing(s, m, x, agent, emissions[1..]);
      PlusNone(NoResources);
      hide Spent, ResourceDelta.Plus;
    }
  }

  lemma CalmReply(s: Setup, m: Minds, x: Session, agent: Agent)
    requires Composed(m) && !Acts(ReplyOf(s, m, x, agent).emissions)
    ensures Inactive(ReplyOf(s, m, x, agent).emissions) && ReplyOf(s, m, x, agent).memo == MemoOf(x, agent)
  {
    hide Acts, Inactive, EnvRequest;
  }

  lemma {:induction false} NobodySpends(s: Setup, m: Minds, x: Session, agents: seq<Agent>)
    requires Composed(m) && NobodyActs(s, m, x, agents)
    ensures AskingSpends(s, m, x, agents) == NoResources
  {
    if |agents| > 0 {
      hide Composed, Spent, ReplyOf, Acts, Inactive, NobodyActs;
      NobodyOfFewer(s, m, x, agents);
      CalmReply(s, m, x, agents[0]);
      InactiveSpendsNothing(s, m, x, agents[0], ReplyOf(s, m, x, agents[0]).emissions);
      NobodySpends(s, m, x, agents[1..]);
      PlusNone(NoResources);
    }
  }

  lemma PerformsNothing(s: Setup, m: Minds, x: Session, agent: Agent, emissions: seq<Emission>)
    ensures Performed(s, m, x, Offered(agent, emissions)) == [] <==> !Acts(emissions)
  {
    hide Performed, Offered, Acts;
    OfferedIsHis(agent, emissions);
    PerformedAmong(s, m, x, Offered(agent, emissions));
  }

  lemma NobodyOfBoth(s: Setup, m: Minds, x: Session, before: seq<Agent>, after: seq<Agent>)
    ensures NobodyActs(s, m, x, before + after) <==> NobodyActs(s, m, x, before) && NobodyActs(s, m, x, after)
  {
    hide Acts, EnvRequest, MemoOf;
    assert forall a :: a in before + after <==> a in before || a in after;
  }

  lemma NobodyOfOne(s: Setup, m: Minds, x: Session, agent: Agent)
    ensures NobodyActs(s, m, x, [agent]) <==> !Acts(ReplyOf(s, m, x, agent).emissions)
  {
    hide Acts, EnvRequest, MemoOf;
    assert forall a :: a in [agent] <==> a == agent;
  }

  /** With nothing of the agent's own left, the tick begun over does what was left exactly if none of those asked again acts. */
  lemma NobodyAgain(s: Setup, m: Minds, x: Session, rest: Rest)
    requires Fits(s, rest, Active(s, x)) && DoneActing(rest)
    ensures SameActions(s, m, x, rest) <==> NobodyActs(s, m, x, AskedAgain(s, x, rest))
  {
    hide NobodyActs, Performed, Offered, Acts, ReplyOf, Active, Offers, Sort;
    match rest {
      case InTurn(agent, emissions, later) =>
        PerformsNothing(s, m, x, agent, emissions);
        PerformsNothing(s, m, x, agent, ReplyOf(s, m, x, agent).emissions);
        NobodyOfBoth(s, m, x, AskedBefore(Active(s, x), later), [agent]);
        NobodyOfOne(s, m, x, agent);
      case AllAtOnce(_) =>
        var offers := Offers(s, m, x, Active(s, x));
        OffersOfNobody(s, m, x, Active(s, x));
        SortKeepsElements(offers, ActionOrder());
        PerformedAmong(s, m, x, Sort(offers, ActionOrder()));
        PerformedAmong(s, m, x, []);
    }
  }

  lemma CalmCursors(s: Setup, m: Minds, x: Session, agents: seq<Agent>)
    requires Composed(m) && NobodyActs(s, m, x, agents) && forall b :: b in agents ==> b in x.memos
    ensures forall b :: b in agents ==> ReplyOf(s, m, x, b).memo == x.memos[b]
  {
    hide Composed, Acts, Inactive, EnvRequest;
    forall b | b in agents ensures ReplyOf(s, m, x, b).memo == x.memos[b] {
      CalmReply(s, m, x, b);
    }
  }

  lemma CalmAgain(s: Setup, m: Minds, x: Session, rest: Rest)
    requires Composed(m) && Fits(s, rest, Active(s, x)) && forall b :: b in Active(s, x) ==> b in x.memos
    requires NobodyActs(s, m, x, AskedAgain(s, x, rest))
    ensures SameCursors(s, m, x, rest) && Extra(s, m, x, rest) == Minus(LeftToSpend(s, m, x, rest))
  {
    hide Composed, NobodyActs, Acts, Inactive, Active, Spent, ReplyOf, ResourceDelta.Plus, Fits;
    AskedAreActive(s, x, rest);
    CalmCursors(s, m, x, AskedAgain(s, x, rest));
    match rest {
      case InTurn(agent, emissions, later) =>
        var before := AskedBefore(Active(s, x), later);
        NobodyOfBoth(s, m, x, before, [agent]);
        NobodyOfOne(s, m, x, agent);
        NobodySpends(s, m, x, before);
        CalmReply(s, m, x, agent);
        InactiveSpendsNothing(s, m, x, agent, ReplyOf(s, m, x, agent).emissions);
        PlusNone(NoResources);
        var left := Minus(Spent(s, m, x, agent, emissions));
        PlusLaws(left, left, left);
      case AllAtOnce(_) =>
        NobodySpends(s, m, x, Active(s, x));
        assert Minus(NoResources) == NoResources;
    }
  }

  /** A checkpoint after the last action of an agent's turn, or of a parallel tick, with agents that
      act or stay as they are: the resumed attempt comes to the same result if and only if the
      episode was over, or none of the agents asked before the checkpoint would act when asked
      once more, and nothing was left to be spent in that turn. */
  lemma ResumeBetweenActions(s: Setup, m: Minds, m': Minds, z: Session, rest: Rest, t: Tables)
    requires s.clockStep >= 1 && SameAnswers(m, m) && SameAnswers(m, m') && Restorable(m, m', z.memos) && Stored(s, m, z, t)
    requires z.sinceCheckpoint == 0 && z.core.world.time <= s.limits.maxLogicalTime
    requires Distinct(s.AgentIds()) && Fits(s, rest, Active(s, z)) && forall b :: b in Active(s, z) ==> b in z.memos
    requires EnvGoOn(s, m, z, rest).0.core.journal.sequence < s.limits.maxEvents
    requires EnvComeBack(s, m, m', z, t).0.core.journal.sequence < s.limits.maxEvents
    requires Composed(m) && DoneActing(rest)
    ensures var x := SaveCheckpoint(s, m, z);
      SameResult(s, EnvGoOn(s, m, z, rest).0, EnvComeBack(s, m, m', z, t).0) <==>
        z.core.world.finished || (NobodyActs(s, m, x, AskedAgain(s, x, rest)) && LeftToSpend(s, m, x, rest) == NoResources)
  {
    var x := SaveCheckpoint(s, m, z);
    SavedFacts(s, m, z);
    hide SameAnswers, Restorable, Stored, Composed, DoneActing, Fits, Active, SaveCheckpoint, EnvGoOn, EnvComeBack, SameActions, SameCursors, Extra,
         SameResult, NobodyActs, AskedAgain, LeftToSpend, WorkAt, Remembers;
    ResumeExactly(s, m, m', z, rest, t);
    NobodyAgain(s, m, x, rest);
    if NobodyActs(s, m, x, AskedAgain(s, x, rest)) {
      CalmAgain(s, m, x, rest);
      MinusNothing(LeftToSpend(s, m, x, rest));
    }
  }

  lemma MinusNothing(r: ResourceDelta)
    ensures Minus(r) == NoResources <==> r == NoResources
  {
  }
}
