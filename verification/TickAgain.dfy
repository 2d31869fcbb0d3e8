/** Beginning a tick over against finishing it: what the state captured in the middle of a tick
    says about the difference. */
module TickAgain {
  import opened Wrappers
  import opened Contracts
  import opened KernelState
  import opened Sorting
  import opened Scheduler
  import opened Journals
  import opened WorldRules
  import opened DriverRules
  import opened Growth
  import opened Equivalence
  import opened Resumption
  import opened EnvResumption
  import opened Kinship
  import opened TickActions

  /** What an agent answers if it is asked in the state of `x`. */
  function ReplyOf(s: Setup, m: Minds, x: Session, agent: Agent): Reply {
    m.invoke(agent, MemoOf(x, agent), EnvRequest(s, x, agent, 0))
  }

  /** An agent's cursor is the same in both. */
  ghost predicate SameOn(x: Session, y: Session, agent: Agent) {
    (agent in x.memos <==> agent in y.memos) && (agent in x.memos ==> x.memos[agent] == y.memos[agent])
  }

  ghost predicate SameOnAll(x: Session, y: Session, agents: seq<Agent>) {
    forall a :: a in agents ==> SameOn(x, y, a)
  }

  // ---- one turn ----

  /** The session in which an agent has been asked and its stream is about to be taken. */
  function AskedIn(x: Session, agent: Agent, memo: Memo): Session {
    x.(driver := x.driver.(invocations := x.driver.invocations + 1), memos := x.memos[agent := memo])
  }

  lemma SameRequest(s: Setup, x: Session, y: Session, r: ResourceDelta, agent: Agent, n: nat)
    requires Akin(s, x, y, r)
    ensures EnvRequest(s, y, agent, n) == EnvRequest(s, x, agent, 0).(invocation := n)
  {
    AkinWorld(s, x, y, r);
    hide Akin;
  }

  /** In akin sessions an agent with the same cursor answers the same. */
  lemma TurnIs(s: Setup, m: Minds, m': Minds, x: Session, y: Session, r: ResourceDelta, agent: Agent, collected: seq<Action>)
    requires Akin(s, x, y, r) && SameAnswers(m, m') && SameOn(x, y, agent)
    ensures EnvTurn(s, m', y, agent, collected)
         == EnvStream(s, m', AskedIn(y, agent, ReplyOf(s, m, x, agent).memo), agent, ReplyOf(s, m, x, agent).emissions, collected)
  {
    SameRequest(s, x, y, r, agent, y.driver.invocations + 1);
    hide Akin, EnvStream, EnvRequest;
  }

  lemma AkinAsked(s: Setup, x: Session, y: Session, r: ResourceDelta, agent: Agent, memo: Memo)
    requires Akin(s, x, y, r)
    ensures Akin(s, x, AskedIn(y, agent, memo), r) && Akin(s, AskedIn(x, agent, memo), y, r)
  {
    hide Like, Spend;
  }

  lemma AkinCharged(s: Setup, x: Session, y: Session, r: ResourceDelta, em: Emission)
    requires Akin(s, x, y, r)
    ensures Akin(s, x.(core := EnvCharge(x.core, em)), y.(core := EnvCharge(y.core, em)), r)
  {
    PlusLaws(x.core.world.resources, r, em.delta);
    PlusLaws(x.core.world.resources, em.delta, r);
    PlusLaws(r, em.delta, r);
    hide Canon, Deeds, ResourceDelta.Plus;
  }

  lemma {:induction false} StreamAkin(
      s: Setup, m: Minds, m': Minds, x: Session, y: Session, r: ResourceDelta, agent: Agent, emissions: seq<Emission>, collected: seq<Action>)
    requires Akin(s, x, y, r)
    ensures var ((u, c), (v, d)) := (EnvStream(s, m, x, agent, emissions, collected), EnvStream(s, m', y, agent, emissions, collected));
      Akin(s, u, v, r) && d == c
    decreases |emissions|
  {
    hide EnvCommit, Akin, EnvCharge, ResourceDelta.Plus;
    if |emissions| > 0 {
      var em := emissions[0];
      AkinCharged(s, x, y, r, em);
      var x1, y1 := x.(core := EnvCharge(x.core, em)), y.(core := EnvCharge(y.core, em));
      if !em.kind.EmitAction? {
        StreamAkin(s, m, m', x1, y1, r, agent, emissions[1..], collected);
      } else if s.driver.ParallelDriven? {
        StreamAkin(s, m, m', x1, y1, r, agent, emissions[1..], collected + [ActionOf(agent, em)]);
      } else {
        AkinCommit(s, m, m', x1, y1, r, ActionOf(agent, em));
        var x2, y2 := EnvCommit(s, m, x1, ActionOf(agent, em)), EnvCommit(s, m', y1, ActionOf(agent, em));
        AkinWorld(s, x2, y2, r);
        StreamAkin(s, m, m', x2, y2, r, agent, emissions[1..], collected);
      }
    }
  }

  lemma MemosAfterTurn(s: Setup, m: Minds, m': Minds, x: Session, y: Session, r: ResourceDelta, agent: Agent, collected: seq<Action>)
    requires Akin(s, x, y, r) && SameAnswers(m, m') && SameOn(x, y, agent)
    ensures EnvTurn(s, m', y, agent, collected).0.memos == y.memos[agent := ReplyOf(s, m, x, agent).memo]
  {
    TurnIs(s, m, m', x, y, r, agent, collected);
    hide EnvTurn, EnvStream, Akin, ReplyOf;
    StreamKeepsMemos(s, m', AskedIn(y, agent, ReplyOf(s, m, x, agent).memo), agent, ReplyOf(s, m, x, agent).emissions, collected);
  }

  lemma SameOnAfter(x: Session, y: Session, u: Session, v: Session, agent: Agent, memo: Memo)
    requires u.memos == x.memos[agent := memo] && v.memos == y.memos[agent := memo]
    ensures forall b :: SameOn(x, y, b) ==> SameOn(u, v, b)
  {
  }

  /** A turn of an agent with the same cursor in akin sessions. */
  lemma TurnAkin(s: Setup, m: Minds, m': Minds, x: Session, y: Session, r: ResourceDelta, agent: Agent, collected: seq<Action>)
    requires Akin(s, x, y, r) && SameAnswers(m, m) && SameAnswers(m, m') && SameOn(x, y, agent)
    ensures var ((u, c), (v, d)) := (EnvTurn(s, m, x, agent, collected), EnvTurn(s, m', y, agent, collected));
      Akin(s, u, v, r) && d == c && forall b :: SameOn(x, y, b) ==> SameOn(u, v, b)
  {
    AkinAside(s, x, x);
    hide EnvTurn, EnvStream, Akin, ReplyOf, SameAnswers, AskedIn;
    TurnIs(s, m, m', x, y, r, agent, collected);
    TurnIs(s, m, m, x, x, NoResources, agent, collected);
    MemosAfterTurn(s, m, m', x, y, r, agent, collected);
    MemosAfterTurn(s, m, m, x, x, NoResources, agent, collected);
    var reply := ReplyOf(s, m, x, agent);
    AkinAsked(s, x, y, r, agent, reply.memo);
    AkinAsked(s, x, AskedIn(y, agent, reply.memo), r, agent, reply.memo);
    StreamAkin(s, m, m', AskedIn(x, agent, reply.memo), AskedIn(y, agent, reply.memo), r, agent, reply.emissions, collected);
    SameOnAfter(x, y, EnvTurn(s, m, x, agent, collected).0, EnvTurn(s, m', y, agent, collected).0, agent, reply.memo);
  }

  // ---- agents in turn ----

  lemma {:induction false} AgentsAkin(
      s: Setup, m: Minds, m': Minds, x: Session, y: Session, r: ResourceDelta, agents: seq<Agent>, collected: seq<Action>)
    requires Akin(s, x, y, r) && SameAnswers(m, m) && SameAnswers(m, m') && SameOnAll(x, y, agents)
    ensures var ((u, c), (v, d)) := (EnvAgents(s, m, x, agents, collected), EnvAgents(s, m', y, agents, collected));
      Akin(s, u, v, r) && d == c && forall b :: SameOn(x, y, b) ==> SameOn(u, v, b)
    decreases |agents|
  {
    hide EnvTurn, Akin, SameAnswers, SameOn;
    if |agents| > 0 {
      TurnAkin(s, m, m', x, y, r, agents[0], collected);
      var (x1, c1) := EnvTurn(s, m, x, agents[0], collected);
      var y1 := EnvTurn(s, m', y, agents[0], collected).0;
      AkinWorld(s, x1, y1, r);
      AgentsAkin(s, m, m', x1, y1, r, agents[1..], c1);
    }
  }

  lemma {:induction false} AgentsConcat(s: Setup, m: Minds, x: Session, before: seq<Agent>, after: seq<Agent>, collected: seq<Action>)
    requires !x.core.world.finished
    ensures var (y, c) := EnvAgents(s, m, x, before, collected);
      EnvAgents(s, m, x, before + after, collected) == if y.core.world.finished then (y, c) else EnvAgents(s, m, y, after, c)
    decreases |before|
  {
    hide EnvTurn;
    if |before| == 0 {
      assert before + after == after;
    } else {
      var (y, c) := EnvTurn(s, m, x, before[0], collected);
      assert (before + after)[1..] == before[1..] + after;
      if !y.core.world.finished {
        AgentsConcat(s, m, y, before[1..], after, c);
      }
    }
  }

  /** The actions all the agents would offer if each were asked in the state of `x`. */
  function Offers(s: Setup, m: Minds, x: Session, agents: seq<Agent>): seq<Action> {
    if |agents| == 0 then [] else Offered(agents[0], ReplyOf(s, m, x, agents[0]).emissions) + Offers(s, m, x, agents[1..])
  }

  /** What asking each of them in that state spends. */
  function AskingSpends(s: Setup, m: Minds, x: Session, agents: seq<Agent>): ResourceDelta {
    if |agents| == 0 then NoResources
    else Spent(s, m, x, agents[0], ReplyOf(s, m, x, agents[0]).emissions).Plus(AskingSpends(s, m, x, agents[1..]))
  }

  lemma AskedOnce(s: Setup, m: Minds, x: Session, y: Session, r: ResourceDelta, agent: Agent, collected: seq<Action>)
    requires Akin(s, x, y, r) && SameAnswers(m, m) && SameOn(x, y, agent)
    requires s.driver.ParallelDriven? || !Acts(ReplyOf(s, m, x, agent).emissions)
    ensures var reply := ReplyOf(s, m, x, agent);
      var (u, c) := EnvTurn(s, m, y, agent, collected);
      && Akin(s, x, u, r.Plus(Spent(s, m, x, agent, reply.emissions))) && u.memos == y.memos[agent := reply.memo]
      && c == collected + Offered(agent, reply.emissions)
  {
    hide EnvTurn, EnvStream, Akin, ReplyOf, SameAnswers, Spent, ResourceDelta.Plus;
    var reply := ReplyOf(s, m, x, agent);
    TurnIs(s, m, m, x, y, r, agent, collected);
    MemosAfterTurn(s, m, m, x, y, r, agent, collected);
    AkinAsked(s, x, y, r, agent, reply.memo);
    var y1 := AskedIn(y, agent, reply.memo);
    AkinSpent(s, m, m, x, y1, r, agent, reply.emissions);
    var u := EnvStream(s, m, y1, agent, reply.emissions, collected).0;
    if s.driver.ParallelDriven? {
      StreamIsCollected(s, m, y1, agent, reply.emissions, collected);
    } else {
      OfferedIsHis(agent, reply.emissions);
      StreamIsCommits(s, m, y1, agent, reply.emissions, collected);
      assert collected + [] == collected;
    }
    AkinOn(s, x, y1, u, r, Spent(s, m, y1, agent, reply.emissions));
  }

  lemma NobodyOfFewer(s: Setup, m: Minds, x: Session, agents: seq<Agent>)
    requires |agents| > 0
    ensures NobodyActs(s, m, x, agents) <==> !Acts(ReplyOf(s, m, x, agents[0]).emissions) && NobodyActs(s, m, x, agents[1..])
  {
    hide Acts, EnvRequest;
    if !Acts(ReplyOf(s, m, x, agents[0]).emissions) && NobodyActs(s, m, x, agents[1..]) {
      forall a | a in agents ensures !Acts(m.invoke(a, MemoOf(x, a), EnvRequest(s, x, a, 0)).emissions) {
        assert a == agents[0] || a in agents[1..];
      }
    }
  }

  /** Asking agents of whom nobody acts, or whose actions are collected, changes what they remember and what was spent. */
  lemma {:induction false} AskingAll(s: Setup, m: Minds, x: Session, y: Session, r: ResourceDelta, agents: seq<Agent>, collected: seq<Action>)
    requires Akin(s, x, y, r) && SameAnswers(m, m) && SameOnAll(x, y, agents) && Distinct(agents) && !x.core.world.finished
    requires s.driver.ParallelDriven? || NobodyActs(s, m, x, agents)
    ensures var (u, c) := EnvAgents(s, m, y, agents, collected);
      && Akin(s, x, u, r.Plus(AskingSpends(s, m, x, agents))) && c == collected + Offers(s, m, x, agents)
      && (forall b :: b in agents ==> b in u.memos && u.memos[b] == ReplyOf(s, m, x, b).memo)
      && (forall b :: b !in agents ==> SameOn(y, u, b))
    decreases |agents|
  {
    hide EnvTurn, Akin, ReplyOf, SameAnswers, Spent, ResourceDelta.Plus, NobodyActs, Acts, Offered;
    if |agents| == 0 {
      PlusLaws(r, r, r);
      assert forall b :: SameOn(y, y, b);
      assert collected + [] == collected;
    } else {
      var a := agents[0];
      var reply := ReplyOf(s, m, x, a);
      NobodyOfFewer(s, m, x, agents);
      AskedOnce(s, m, x, y, r, a, collected);
      var (y1, c1) := EnvTurn(s, m, y, a, collected);
      var r1 := r.Plus(Spent(s, m, x, a, reply.emissions));
      AkinWorld(s, x, y1, r1);
      assert forall i :: 0 <= i < |agents[1..]| ==> agents[1..][i] == agents[i + 1];
      assert a !in agents[1..];
      OthersKeep(x, y, y1, a, reply.memo, agents);
      AskingAll(s, m, x, y1, r1, agents[1..], c1);
      var u := EnvAgents(s, m, y1, agents[1..], c1).0;
      OthersUntouched(y, y1, u, a, reply.memo, agents);
      assert SameOn(y1, u, a);
      PlusLaws(r, Spent(s, m, x, a, reply.emissions), AskingSpends(s, m, x, agents[1..]));
      assert c1 + Offers(s, m, x, agents[1..]) == collected + Offers(s, m, x, agents);
    }
  }

  // ---- what the log shows of agents in turn ----

  lemma StreamShows(s: Setup, m: Minds, x: Session, agent: Agent, emissions: seq<Emission>, collected: seq<Action>)
    requires !s.driver.ParallelDriven?
    ensures ActionsOf(EnvStream(s, m, x, agent, emissions, collected).0.core)
         == ActionsOf(x.core) + Performed(s, m, x, Offered(agent, emissions))
  {
    StreamIsCommits(s, m, x, agent, emissions, collected);
    var offered := Offered(agent, emissions);
    AkinWorld(s, EnvCommitAll(s, m, x, offered), EnvStream(s, m, x, agent, emissions, collected).0, Spent(s, m, x, agent, emissions));
    hide Akin, EnvStream, Spent, Deeds, ActionsIn;
    CommitAllShows(s, m, x, offered);
  }

  lemma TurnShows(s: Setup, m: Minds, x: Session, agent: Agent, collected: seq<Action>) returns (p: seq<Action>)
    requires !s.driver.ParallelDriven?
    ensures ActionsOf(EnvTurn(s, m, x, agent, collected).0.core) == ActionsOf(x.core) + p && forall a :: a in p ==> a.actor == agent
  {
    hide EnvStream, ActionsOf, EnvRequest, MemoOf, Performed, Offered;
    var n := x.driver.invocations + 1;
    var reply := m.invoke(agent, MemoOf(x, agent), EnvRequest(s, x, agent, n));
    var y := AskedIn(x, agent, reply.memo);
    StreamShows(s, m, y, agent, reply.emissions, collected);
    p := Performed(s, m, y, Offered(agent, reply.emissions));
    OfferedIsHis(agent, reply.emissions);
    PerformedAmong(s, m, y, Offered(agent, reply.emissions));
  }

  lemma {:induction false} AgentsShow(s: Setup, m: Minds, x: Session, agents: seq<Agent>, collected: seq<Action>) returns (p: seq<Action>)
    requires !s.driver.ParallelDriven?
    ensures ActionsOf(EnvAgents(s, m, x, agents, collected).0.core) == ActionsOf(x.core) + p && forall a :: a in p ==> a.actor in agents
    decreases |agents|
  {
    hide EnvTurn, ActionsOf;
    if |agents| == 0 {
      p := [];
      assert ActionsOf(x.core) + [] == ActionsOf(x.core);
    } else {
      p := TurnShows(s, m, x, agents[0], collected);
      var (y, c) := EnvTurn(s, m, x, agents[0], collected);
      if !y.core.world.finished {
        var q := AgentsShow(s, m, y, agents[1..], c);
        assert ActionsOf(x.core) + p + q == ActionsOf(x.core) + (p + q);
        p := p + q;
      }
    }
  }

  /** If one of the agents would act, asking them in turn leaves an action in the log. */
  lemma {:induction false} SomebodyShows(s: Setup, m: Minds, x: Session, y: Session, r: ResourceDelta, agents: seq<Agent>, collected: seq<Action>)
    requires !s.driver.ParallelDriven? && !x.core.world.finished
    requires Akin(s, x, y, r) && SameAnswers(m, m) && SameOnAll(x, y, agents) && Distinct(agents) && !NobodyActs(s, m, x, agents)
    ensures |ActionsOf(EnvAgents(s, m, y, agents, collected).0.core)| > |ActionsOf(y.core)|
    decreases |agents|
  {
    hide EnvTurn, Akin, ReplyOf, SameAnswers, Spent, ResourceDelta.Plus, NobodyActs, Acts, ActionsOf, SameOn;
    if |agents| == 0 {
      EmptyActs(s, m, x);
    } else {
      var a := agents[0];
      NobodyOfFewer(s, m, x, agents);
      var (y1, c1) := EnvTurn(s, m, y, a, collected);
      assert forall i :: 0 <= i < |agents[1..]| ==> agents[1..][i] == agents[i + 1];
      if Acts(ReplyOf(s, m, x, a).emissions) {
        ActingShows(s, m, x, y, r, a, collected);
        if !y1.core.world.finished {
          var q := AgentsShow(s, m, y1, agents[1..], c1);
        }
      } else {
        AskedOnce(s, m, x, y, r, a, collected);
        var r1 := r.Plus(Spent(s, m, x, a, ReplyOf(s, m, x, a).emissions));
        AkinWorld(s, x, y1, r1);
        AkinSilent(s, x, y, r);
        AkinSilent(s, x, y1, r1);
        assert SameOnAll(x, y1, agents[1..]) by { OthersKeep(x, y, y1, a, ReplyOf(s, m, x, a).memo, agents); }
        SomebodyShows(s, m, x, y1, r1, agents[1..], c1);
      }
    }
  }

  lemma EmptyActs(s: Setup, m: Minds, x: Session)
    ensures NobodyActs(s, m, x, [])
  {
  }

  lemma OthersKeep(x: Session, y: Session, y1: Session, a: Agent, memo: Memo, agents: seq<Agent>)
    requires |agents| > 0 && agents[0] == a && Distinct(agents) && SameOnAll(x, y, agents) && y1.memos == y.memos[a := memo]
    ensures SameOnAll(x, y1, agents[1..])
  {
    forall b | b in agents[1..] ensures SameOn(x, y1, b) {
      var i :| 0 <= i < |agents[1..]| && agents[1..][i] == b;
      assert agents[i + 1] == b && b != a && SameOn(x, y, b);
    }
  }

  lemma OthersUntouched(y: Session, y1: Session, u: Session, a: Agent, memo: Memo, agents: seq<Agent>)
    requires |agents| > 0 && agents[0] == a && y1.memos == y.memos[a := memo]
    requires forall b :: b !in agents[1..] ==> SameOn(y1, u, b)
    ensures forall b :: b !in agents ==> SameOn(y, u, b)
  {
    forall b | b !in agents ensures SameOn(y, u, b) {
      assert b != a && b !in agents[1..] && SameOn(y1, u, b);
    }
  }

  lemma AkinSilent(s: Setup, x: Session, y: Session, r: ResourceDelta)
    requires Akin(s, x, y, r)
    ensures ActionsOf(y.core) == ActionsOf(x.core)
  {
    hide Deeds, Canon;
  }

  lemma ActingShows(s: Setup, m: Minds, x: Session, y: Session, r: ResourceDelta, agent: Agent, collected: seq<Action>)
    requires !s.driver.ParallelDriven? && Akin(s, x, y, r) && SameAnswers(m, m) && SameOn(x, y, agent)
    requires Acts(ReplyOf(s, m, x, agent).emissions)
    ensures |ActionsOf(EnvTurn(s, m, y, agent, collected).0.core)| > |ActionsOf(y.core)|
  {
    hide EnvTurn, EnvStream, Akin, ReplyOf, SameAnswers, ActionsIn, Deeds;
    var reply := ReplyOf(s, m, x, agent);
    TurnIs(s, m, m, x, y, r, agent, collected);
    var y1 := AskedIn(y, agent, reply.memo);
    StreamShows(s, m, y1, agent, reply.emissions, collected);
    OfferedIsHis(agent, reply.emissions);
    PerformedAmong(s, m, y1, Offered(agent, reply.emissions));
  }

  // ---- finishing a tick and beginning it over ----

  /** The agents that were asked before the one in the middle of its stream. */
  function AskedBefore(active: seq<Agent>, later: seq<Agent>): seq<Agent> {
    if |later| < |active| then active[..|active| - |later| - 1] else []
  }

  /** What was left of a tick fits the agents taking part. */
  ghost predicate Fits(s: Setup, rest: Rest, active: seq<Agent>) {
    match rest
    case InTurn(agent, _, later) => !s.driver.ParallelDriven? && |later| < |active| && active == AskedBefore(active, later) + ([agent] + later)
    case AllAtOnce(_) => s.driver.ParallelDriven?
  }

  function Active(s: Setup, x: Session): seq<Agent> {
    ActiveAgents(s, x.core.world.dropped)
  }

  /** Asked once more in the state of `x`, the agents would offer what was left: those before the
      one in the middle of its stream nothing, and that one the rest of its stream; or, in parallel
      mode, all of them together the actions not yet committed. Actions beyond the end of the
      episode do not matter. */
  ghost predicate SameActions(s: Setup, m: Minds, x: Session, rest: Rest) {
    match rest
    case InTurn(agent, emissions, later) =>
      && NobodyActs(s, m, x, AskedBefore(Active(s, x), later))
      && Performed(s, m, x, Offered(agent, ReplyOf(s, m, x, agent).emissions)) == Performed(s, m, x, Offered(agent, emissions))
    case AllAtOnce(actions) =>
      Performed(s, m, x, Sort(Offers(s, m, x, Active(s, x)), ActionOrder())) == Performed(s, m, x, actions)
  }

  /** The agents asked a second time when the tick is begun over. */
  function AskedAgain(s: Setup, x: Session, rest: Rest): seq<Agent> {
    match rest
    case InTurn(agent, _, later) => AskedBefore(Active(s, x), later) + [agent]
    case AllAtOnce(_) => Active(s, x)
  }

  /** Asked once more, they would remember what they remember already. */
  ghost predicate SameCursors(s: Setup, m: Minds, x: Session, rest: Rest) {
    forall a :: a in AskedAgain(s, x, rest) ==> a in x.memos && ReplyOf(s, m, x, a).memo == x.memos[a]
  }

  /** What beginning over spends beyond what was left to be spent. */
  function Extra(s: Setup, m: Minds, x: Session, rest: Rest): ResourceDelta {
    match rest
    case InTurn(agent, emissions, later) =>
      Minus(Spent(s, m, x, agent, emissions)).Plus(
        AskingSpends(s, m, x, AskedBefore(Active(s, x), later)).Plus(Spent(s, m, x, agent, ReplyOf(s, m, x, agent).emissions)))
    case AllAtOnce(_) => AskingSpends(s, m, x, Active(s, x))
  }

  /** A tick of turn-taking agents, up to and with one of them. */
  function UpTo(s: Setup, m: Minds, x: Session, before: seq<Agent>, agent: Agent): Session {
    EnvTurn(s, m, EnvAgents(s, m, x, before, []).0, agent, []).0
  }

  lemma {:induction false} NothingCollected(s: Setup, m: Minds, x: Session, agents: seq<Agent>, collected: seq<Action>)
    requires !s.driver.ParallelDriven?
    ensures EnvAgents(s, m, x, agents, collected).1 == collected
    decreases |agents|
  {
    hide EnvStream;
    if |agents| > 0 {
      var n := x.driver.invocations + 1;
      var reply := m.invoke(agents[0], MemoOf(x, agents[0]), EnvRequest(s, x, agents[0], n));
      var y := x.(driver := x.driver.(invocations := n), memos := x.memos[agents[0] := reply.memo]);
      StreamIsCommits(s, m, y, agents[0], reply.emissions, collected);
      NothingCollected(s, m, EnvTurn(s, m, x, agents[0], collected).0, agents[1..], collected);
    }
  }

  /** The tick begun over, cut after the agent that had been in the middle of its stream. */
  lemma OverInParts(s: Setup, m: Minds, x: Session, before: seq<Agent>, agent: Agent, later: seq<Agent>)
    requires !s.driver.ParallelDriven? && !x.core.world.finished
    ensures var y, z := EnvAgents(s, m, x, before, []).0, UpTo(s, m, x, before, agent);
      EnvAgents(s, m, x, before + ([agent] + later), []).0
        == if y.core.world.finished then y else if z.core.world.finished then z else EnvAgents(s, m, z, later, []).0
  {
    hide EnvTurn;
    AgentsConcat(s, m, x, before, [agent] + later, []);
    NothingCollected(s, m, x, before, []);
    var y := EnvAgents(s, m, x, before, []).0;
    NothingCollected(s, m, y, [agent], []);
    assert ([agent] + later)[1..] == later;
    assert EnvAgents(s, m, y, [agent], []) == EnvTurn(s, m, y, agent, []) by {
      assert [agent][1..] == [];
    }
  }

  lemma DistinctParts(before: seq<Agent>, agent: Agent, later: seq<Agent>)
    requires Distinct(before + ([agent] + later))
    ensures Distinct(before) && agent !in before && agent !in later && forall b :: b in before ==> b !in later
  {
    var all := before + ([agent] + later);
    assert forall i :: 0 <= i < |before| ==> all[i] == before[i];
    assert all[|before|] == agent;
    assert forall i :: 0 <= i < |later| ==> all[|before| + 1 + i] == later[i];
  }

  /** If they offer what was left, the tick begun over is akin to the one finished, up to the agent in the middle of its stream. */
  lemma SameUpTo(s: Setup, m: Minds, x: Session, before: seq<Agent>, agent: Agent, emissions: seq<Emission>)
    requires !s.driver.ParallelDriven? && !x.core.world.finished && SameAnswers(m, m) && Distinct(before) && agent !in before
    requires NobodyActs(s, m, x, before)
    requires Performed(s, m, x, Offered(agent, ReplyOf(s, m, x, agent).emissions)) == Performed(s, m, x, Offered(agent, emissions))
    ensures var y, z := EnvStream(s, m, x, agent, emissions, []).0, UpTo(s, m, x, before, agent);
      && !EnvAgents(s, m, x, before, []).0.core.world.finished
      && Akin(s, y, z, Minus(Spent(s, m, x, agent, emissions)).Plus(
                AskingSpends(s, m, x, before).Plus(Spent(s, m, x, agent, ReplyOf(s, m, x, agent).emissions))))
      && (forall b :: b in before + [agent] ==> b in z.memos && z.memos[b] == ReplyOf(s, m, x, b).memo)
      && (forall b :: b !in before + [agent] ==> SameOn(x, z, b))
  {
    hide EnvTurn, EnvAgents, EnvStream, Akin, ReplyOf, SameAnswers, Spent, ResourceDelta.Plus, NobodyActs, Performed, EnvCommitAll, Offered;
    var reply := ReplyOf(s, m, x, agent);
    AkinAside(s, x, x);
    assert SameOnAll(x, x, before);
    AskingAll(s, m, x, x, NoResources, before, []);
    var y := EnvAgents(s, m, x, before, []).0;
    var q := AskingSpends(s, m, x, before);
    PlusLaws(q, q, q);
    PlusLaws(NoResources, q, q);
    AkinWorld(s, x, y, q);
    TurnIs(s, m, m, x, y, q, agent, []);
    MemosAfterTurn(s, m, m, x, y, q, agent, []);
    AkinAsked(s, x, y, q, agent, reply.memo);
    var y1 := AskedIn(y, agent, reply.memo);
    StreamsMeet(s, m, x, y1, q, agent, emissions, reply.emissions);
  }

  /** Two streams that perform the same actions. */
  lemma StreamsMeet(
      s: Setup, m: Minds, x: Session, y: Session, q: ResourceDelta, agent: Agent, emissions: seq<Emission>, others: seq<Emission>)
    requires !s.driver.ParallelDriven? && Akin(s, x, y, q)
    requires Performed(s, m, x, Offered(agent, others)) == Performed(s, m, x, Offered(agent, emissions))
    ensures Akin(s, EnvStream(s, m, x, agent, emissions, []).0, EnvStream(s, m, y, agent, others, []).0,
                 Minus(Spent(s, m, x, agent, emissions)).Plus(q.Plus(Spent(s, m, x, agent, others))))
  {
    hide EnvStream, Akin, Spent, ResourceDelta.Plus, Performed, EnvCommitAll, Offered;
    var a, b := Offered(agent, emissions), Offered(agent, others);
    var left, right := Spent(s, m, x, agent, emissions), Spent(s, m, x, agent, others);
    AkinSpent(s, m, m, x, y, q, agent, others);
    StreamIsCommits(s, m, x, agent, emissions, []);
    StreamIsCommits(s, m, y, agent, others, []);
    AkinCommitAll(s, m, m, x, y, q, b);
    AkinPerformed(s, m, m, x, y, q, a, b);
    var u, v := EnvStream(s, m, x, agent, emissions, []).0, EnvStream(s, m, y, agent, others, []).0;
    AkinBack(s, EnvCommitAll(s, m, x, a), u, left);
    AkinOn(s, EnvCommitAll(s, m, x, a), EnvCommitAll(s, m, y, b), v, q, right);
    AkinOn(s, u, EnvCommitAll(s, m, x, a), v, Minus(left), q.Plus(right));
  }

  /** In turn-taking mode: if they offer what was left. */
  lemma SameInTurn(s: Setup, m: Minds, x: Session, agent: Agent, emissions: seq<Emission>, later: seq<Agent>)
    requires !x.core.world.finished && SameAnswers(m, m) && Distinct(Active(s, x))
    requires Fits(s, InTurn(agent, emissions, later), Active(s, x)) && SameActions(s, m, x, InTurn(agent, emissions, later))
    ensures var rest := InTurn(agent, emissions, later);
      var left, over := FinishTick(s, m, x, rest), Tick(s, m, x);
      && Akin(s, left, over, Extra(s, m, x, rest))
      && (forall b :: b in AskedAgain(s, x, rest) ==> SameOn(x, left, b) && b in over.memos && over.memos[b] == ReplyOf(s, m, x, b).memo)
      && (forall b :: b !in AskedAgain(s, x, rest) ==> SameOn(left, over, b))
  {
    var before := AskedBefore(Active(s, x), later);
    hide EnvTurn, EnvAgents, EnvStream, Akin, ReplyOf, SameAnswers, Spent, ResourceDelta.Plus, NobodyActs, Performed, Offered, Active, SameOn;
    DistinctParts(before, agent, later);
    SameUpTo(s, m, x, before, agent, emissions);
    OverInParts(s, m, x, before, agent, later);
    var y, z := EnvStream(s, m, x, agent, emissions, []).0, UpTo(s, m, x, before, agent);
    var r := Extra(s, m, x, InTurn(agent, emissions, later));
    AkinWorld(s, y, z, r);
    StreamKeepsMemos(s, m, x, agent, emissions, []);
    StreamIsCommits(s, m, x, agent, emissions, []);
    assert forall b :: b in later ==> SameOn(y, z, b) by {
      forall b | b in later ensures SameOn(y, z, b) {
        assert b !in before + [agent];
        SameOnMoved(x, y, z, b);
      }
    }
    AgentsAkin(s, m, m, y, z, r, later, []);
    TickIsAgents(s, m, x);
    OthersAsked(s, m, y, later, []);
    OthersAsked(s, m, z, later, []);
    var u, v := EnvAgents(s, m, y, later, []).0, EnvAgents(s, m, z, later, []).0;
    var left := if y.core.world.finished then y else u;
    var over := if z.core.world.finished then z else v;
    assert left == FinishTick(s, m, x, InTurn(agent, emissions, later));
    assert over == Tick(s, m, x);
    forall b ensures b in before + [agent] ==> SameOn(x, left, b) && b in over.memos && over.memos[b] == ReplyOf(s, m, x, b).memo
      ensures b !in before + [agent] ==> SameOn(left, over, b)
    {
      if b in before + [agent] {
        assert SameOn(y, u, b) && SameOn(z, v, b);
        SameOnLeft(x, y, u, z, v, b);
      } else {
        SameOnMoved(x, y, z, b);
      }
    }
  }

  lemma SameOnMoved(x: Session, y: Session, z: Session, b: Agent)
    requires y.memos == x.memos && SameOn(x, z, b)
    ensures SameOn(y, z, b)
  {
  }

  lemma SameOnLeft(x: Session, y: Session, u: Session, z: Session, v: Session, b: Agent)
    requires y.memos == x.memos && SameOn(y, u, b) && SameOn(z, v, b)
    ensures SameOn(x, y, b) && SameOn(x, u, b)
    ensures b in z.memos ==> b in v.memos && v.memos[b] == z.memos[b]
  {
  }

  lemma TickIsAgents(s: Setup, m: Minds, x: Session)
    requires !s.driver.ParallelDriven?
    ensures Tick(s, m, x) == EnvAgents(s, m, x, Active(s, x), []).0
  {
    hide EnvAgents;
  }

  lemma {:induction false} OthersAsked(s: Setup, m: Minds, x: Session, agents: seq<Agent>, collected: seq<Action>)
    ensures forall b :: b !in agents ==> SameOn(x, EnvAgents(s, m, x, agents, collected).0, b)
    decreases |agents|
  {
    hide EnvStream;
    if |agents| > 0 {
      var a, n := agents[0], x.driver.invocations + 1;
      var reply := m.invoke(a, MemoOf(x, a), EnvRequest(s, x, a, n));
      var y := x.(driver := x.driver.(invocations := n), memos := x.memos[a := reply.memo]);
      StreamKeepsMemos(s, m, y, a, reply.emissions, collected);
      var (x1, c1) := EnvTurn(s, m, x, a, collected);
      OthersAsked(s, m, x1, agents[1..], c1);
      var u := EnvAgents(s, m, x1, agents[1..], c1).0;
      OthersUntouched(x, x1, u, a, reply.memo, agents);
      hide EnvTurn;
      forall b | b !in agents ensures SameOn(x, EnvAgents(s, m, x, agents, collected).0, b) {
        assert SameOn(x, u, b) && b != a;
      }
    }
  }

  /** Two lists that begin with one agent's actions and go on with those of others. */
  function By(agent: Agent): Action -> bool {
    (a: Action) => a.actor == agent
  }

  lemma OnlyBy(mine: seq<Action>, rest: seq<Action>, agent: Agent)
    requires (forall x :: x in mine ==> x.actor == agent) && forall x :: x in rest ==> x.actor != agent
    ensures Filter(mine + rest, By(agent)) == mine
  {
    FilterConcat(mine, rest, By(agent));
    FilterAll(mine, By(agent));
    FilterNone(rest, By(agent));
    hide Filter;
    assert mine + [] == mine;
  }

  lemma SameHeads(a: seq<Action>, rest: seq<Action>, b: seq<Action>, others: seq<Action>, agent: Agent)
    requires a + rest == b + others
    requires (forall x :: x in a ==> x.actor == agent) && forall x :: x in b ==> x.actor == agent
    requires (forall x :: x in rest ==> x.actor != agent) && forall x :: x in others ==> x.actor != agent
    ensures a == b
  {
    OnlyBy(a, rest, agent);
    OnlyBy(b, others, agent);
  }

  lemma LeftShows(s: Setup, m: Minds, x: Session, agent: Agent, emissions: seq<Emission>, later: seq<Agent>) returns (p: seq<Action>)
    requires !s.driver.ParallelDriven? && !x.core.world.finished
    ensures ActionsOf(FinishTick(s, m, x, InTurn(agent, emissions, later)).core)
         == ActionsOf(x.core) + (Performed(s, m, x, Offered(agent, emissions)) + p)
    ensures forall a :: a in p ==> a.actor in later
  {
    hide EnvStream, EnvAgents, ActionsOf, Performed, Offered;
    StreamShows(s, m, x, agent, emissions, []);
    StreamIsCommits(s, m, x, agent, emissions, []);
    var y := EnvStream(s, m, x, agent, emissions, []).0;
    var performed := Performed(s, m, x, Offered(agent, emissions));
    if y.core.world.finished {
      p := [];
      assert performed + [] == performed;
    } else {
      p := AgentsShow(s, m, y, later, []);
      assert ActionsOf(x.core) + performed + p == ActionsOf(x.core) + (performed + p);
    }
  }

  /** The tick begun over, if an agent before the one in the middle of its stream would act. */
  lemma OverBefore(s: Setup, m: Minds, x: Session, agent: Agent, later: seq<Agent>) returns (q: seq<Action>, more: seq<Action>)
    requires !x.core.world.finished && SameAnswers(m, m) && Distinct(Active(s, x))
    requires Fits(s, InTurn(agent, [], later), Active(s, x)) && !NobodyActs(s, m, x, AskedBefore(Active(s, x), later))
    ensures ActionsOf(Tick(s, m, x).core) == ActionsOf(x.core) + q + more
    ensures |q| > 0 && forall a :: a in q ==> a.actor in AskedBefore(Active(s, x), later)
  {
    var before := AskedBefore(Active(s, x), later);
    AkinAside(s, x, x);
    assert SameOnAll(x, x, before);
    hide EnvAgents, Akin, SameAnswers, NobodyActs, Tick, ActionsOf, Active, SameOn, SameOnAll;
    DistinctParts(before, agent, later);
    SomebodyShows(s, m, x, x, NoResources, before, []);
    TickIsAgents(s, m, x);
    AgentsConcat(s, m, x, before, [agent] + later, []);
    var (y, c) := EnvAgents(s, m, x, before, []);
    q := AgentsShow(s, m, x, before, []);
    assert |ActionsOf(x.core) + q| == |ActionsOf(x.core)| + |q|;
    more := [];
    if !y.core.world.finished {
      more := AgentsShow(s, m, y, [agent] + later, c);
    }
    Regroup(ActionsOf(x.core), q, more);
  }

  /** If an agent before the one in the middle of its stream would act. */
  lemma SomebodyBefore(s: Setup, m: Minds, x: Session, agent: Agent, emissions: seq<Emission>, later: seq<Agent>)
    requires !x.core.world.finished && SameAnswers(m, m) && Distinct(Active(s, x))
    requires Fits(s, InTurn(agent, emissions, later), Active(s, x)) && !NobodyActs(s, m, x, AskedBefore(Active(s, x), later))
    ensures ActionsOf(FinishTick(s, m, x, InTurn(agent, emissions, later)).core) != ActionsOf(Tick(s, m, x).core)
  {
    var before := AskedBefore(Active(s, x), later);
    HisAlone(s, m, x, agent, emissions);
    hide SameAnswers, NobodyActs, Performed, Offered, FinishTick, Tick, ActionsOf, Active;
    DistinctParts(before, agent, later);
    var p := LeftShows(s, m, x, agent, emissions, later);
    var q, more := OverBefore(s, m, x, agent, later);
    Headed(ActionsOf(x.core), Performed(s, m, x, Offered(agent, emissions)) + p, q, more, before);
  }

  /** One list goes on with an action of one of the agents, the other does not. */
  lemma Headed(front: seq<Action>, p: seq<Action>, q: seq<Action>, more: seq<Action>, agents: seq<Agent>)
    requires |q| > 0 && q[0].actor in agents && forall a :: a in p ==> a.actor !in agents
    ensures front + p != front + q + more
  {
    var whole := front + q + more;
    assert whole[|front|] == q[0];
    if |p| > 0 {
      assert (front + p)[|front|] == p[0] && p[0] in p;
    } else {
      assert |front + p| < |whole|;
    }
  }

  /** The tick begun over, if nobody before would act. */
  lemma OverShows(s: Setup, m: Minds, x: Session, agent: Agent, later: seq<Agent>) returns (q: seq<Action>)
    requires !x.core.world.finished && SameAnswers(m, m) && Distinct(Active(s, x))
    requires Fits(s, InTurn(agent, [], later), Active(s, x)) && NobodyActs(s, m, x, AskedBefore(Active(s, x), later))
    ensures ActionsOf(Tick(s, m, x).core)
         == ActionsOf(x.core) + (Performed(s, m, x, Offered(agent, ReplyOf(s, m, x, agent).emissions)) + q)
    ensures forall a :: a in q ==> a.actor in later
  {
    var before := AskedBefore(Active(s, x), later);
    var emissions := ReplyOf(s, m, x, agent).emissions;
    hide EnvTurn, EnvAgents, EnvStream, Akin, SameAnswers, NobodyActs, Performed, Offered, Tick, ActionsOf, Active, ReplyOf, UpTo, Spent,
         ResourceDelta.Plus, SameOn;
    DistinctParts(before, agent, later);
    SameUpTo(s, m, x, before, agent, emissions);
    var z := UpTo(s, m, x, before, agent);
    StreamShows(s, m, x, agent, emissions, []);
    AkinShows(s, EnvStream(s, m, x, agent, emissions, []).0, z);
    OverInParts(s, m, x, before, agent, later);
    TickIsAgents(s, m, x);
    q := [];
    if !z.core.world.finished {
      q := AgentsShow(s, m, z, later, []);
    }
    Regroup(ActionsOf(x.core), Performed(s, m, x, Offered(agent, emissions)), q);
  }

  lemma Regroup(a: seq<Action>, b: seq<Action>, c: seq<Action>)
    ensures a + b + c == a + (b + c) && a + b + [] == a + b
  {
  }

  /** If nobody before would act, but the agent itself would do something else. */
  lemma OtherStream(s: Setup, m: Minds, x: Session, agent: Agent, emissions: seq<Emission>, later: seq<Agent>)
    requires !x.core.world.finished && SameAnswers(m, m) && Distinct(Active(s, x))
    requires Fits(s, InTurn(agent, emissions, later), Active(s, x)) && NobodyActs(s, m, x, AskedBefore(Active(s, x), later))
    requires Performed(s, m, x, Offered(agent, ReplyOf(s, m, x, agent).emissions)) != Performed(s, m, x, Offered(agent, emissions))
    ensures ActionsOf(FinishTick(s, m, x, InTurn(agent, emissions, later)).core) != ActionsOf(Tick(s, m, x).core)
  {
    var others := ReplyOf(s, m, x, agent).emissions;
    var mine, again := Performed(s, m, x, Offered(agent, emissions)), Performed(s, m, x, Offered(agent, others));
    HisAlone(s, m, x, agent, emissions);
    HisAlone(s, m, x, agent, others);
    hide SameAnswers, NobodyActs, Performed, Offered, FinishTick, Tick, ActionsOf, Active, ReplyOf;
    DistinctParts(AskedBefore(Active(s, x), later), agent, later);
    var p := LeftShows(s, m, x, agent, emissions, later);
    var q := OverShows(s, m, x, agent, later);
    if ActionsOf(x.core) + (mine + p) == ActionsOf(x.core) + (again + q) {
      SameTails(ActionsOf(x.core), mine + p, again + q);
      SameHeads(mine, p, again, q, agent);
    }
  }

  lemma HisAlone(s: Setup, m: Minds, x: Session, agent: Agent, emissions: seq<Emission>)
    ensures forall a :: a in Performed(s, m, x, Offered(agent, emissions)) ==> a.actor == agent
  {
    hide Performed, Offered;
    OfferedIsHis(agent, emissions);
    PerformedAmong(s, m, x, Offered(agent, emissions));
  }

  lemma SameTails(front: seq<Action>, a: seq<Action>, b: seq<Action>)
    requires front + a == front + b
    ensures a == b
  {
    assert a == (front + a)[|front|..] && b == (front + b)[|front|..];
  }

  lemma AkinShows(s: Setup, x: Session, y: Session)
    requires exists r :: Akin(s, x, y, r)
    ensures ActionsOf(y.core) == ActionsOf(x.core)
  {
    hide Akin;
    var r :| Akin(s, x, y, r);
    AkinSilent(s, x, y, r);
  }

  lemma ParallelTick(s: Setup, m: Minds, x: Session)
    requires s.driver.ParallelDriven?
    ensures var (y, collected) := EnvAgents(s, m, x, Active(s, x), []);
      Tick(s, m, x) == EnvCommitAll(s, m, y, Sort(collected, ActionOrder()))
  {
    hide EnvAgents, EnvCommitAll, Sort;
  }

  /** In parallel mode: asking all, and committing what they offer. */
  lemma AllOver(s: Setup, m: Minds, x: Session) returns (y: Session)
    requires s.driver.ParallelDriven? && !x.core.world.finished && SameAnswers(m, m) && Distinct(Active(s, x))
    ensures Akin(s, x, y, AskingSpends(s, m, x, Active(s, x)))
    ensures Tick(s, m, x) == EnvCommitAll(s, m, y, Sort(Offers(s, m, x, Active(s, x)), ActionOrder()))
    ensures forall b :: b in Active(s, x) ==> b in y.memos && y.memos[b] == ReplyOf(s, m, x, b).memo
    ensures forall b :: b !in Active(s, x) ==> SameOn(x, y, b)
  {
    var active := Active(s, x);
    assert SameOnAll(x, x, active);
    AkinAside(s, x, x);
    ParallelTick(s, m, x);
    hide EnvAgents, EnvCommitAll, Akin, ReplyOf, SameAnswers, ResourceDelta.Plus, Offers, AskingSpends, SameOn, SameOnAll, Active, Tick, Sort;
    AskingAll(s, m, x, x, NoResources, active, []);
    y := EnvAgents(s, m, x, active, []).0;
    assert [] + Offers(s, m, x, active) == Offers(s, m, x, active);
    PlusNone(AskingSpends(s, m, x, active));
  }

  lemma PlusNone(q: ResourceDelta)
    ensures NoResources.Plus(q) == q
  {
  }

  // ---- the result ----

  lemma FromActions(x: Session, y: Session)
    requires ActionsOf(x.core) != ActionsOf(y.core)
    ensures Deeds(x.core.Events()) != Deeds(y.core.Events())
  {
  }

  /** Beginning a tick over logs the work that finishing it logs if and only if, asked once more in
      the state captured, the agents would offer the actions that were left. The two are akin
      then, and also equal in what is remembered and spent exactly if asking again leaves the
      agents' cursors as they are and spends what was left to be spent. */
  lemma FinishedOrOver(s: Setup, m: Minds, x: Session, rest: Rest)
    requires !x.core.world.finished && SameAnswers(m, m) && Distinct(Active(s, x)) && Fits(s, rest, Active(s, x))
    ensures var left, over := FinishTick(s, m, x, rest), Tick(s, m, x);
      && (Deeds(left.core.Events()) == Deeds(over.core.Events()) <==> SameActions(s, m, x, rest))
      && (SameActions(s, m, x, rest) ==> Akin(s, left, over, Extra(s, m, x, rest)))
      && (SameActions(s, m, x, rest) ==> forall b ::
            && (b in AskedAgain(s, x, rest) ==> SameOn(x, left, b) && b in over.memos && over.memos[b] == ReplyOf(s, m, x, b).memo)
            && (b !in AskedAgain(s, x, rest) ==> SameOn(left, over, b)))
  {
    var left, over := FinishTick(s, m, x, rest), Tick(s, m, x);
    match rest {
      case InTurn(agent, emissions, later) =>
        hide FinishTick, Tick, Akin, ReplyOf, SameAnswers, NobodyActs, Performed, Offered, Deeds, ActionsIn, Active, Spent, ResourceDelta.Plus;
        if SameActions(s, m, x, rest) {
          SameInTurn(s, m, x, agent, emissions, later);
          AkinWorld(s, left, over, Extra(s, m, x, rest));
        } else {
          if NobodyActs(s, m, x, AskedBefore(Active(s, x), later)) {
            OtherStream(s, m, x, agent, emissions, later);
          } else {
            SomebodyBefore(s, m, x, agent, emissions, later);
          }
          FromActions(left, over);
        }
      case AllAtOnce(actions) =>
        hide Tick, Akin, ReplyOf, SameAnswers, NobodyActs, Performed, Deeds, ActionsIn, Active, Spent, ResourceDelta.Plus, EnvCommitAll,
             Offers, AskingSpends, SameOn;
        AllOverOrNot(s, m, x, actions);
        if SameActions(s, m, x, rest) {
          AkinWorld(s, left, over, Extra(s, m, x, rest));
        } else {
          FromActions(left, over);
        }
    }
  }

  lemma AllOverOrNot(s: Setup, m: Minds, x: Session, actions: seq<Action>)
    requires s.driver.ParallelDriven? && !x.core.world.finished && SameAnswers(m, m) && Distinct(Active(s, x))
    ensures var left, over := EnvCommitAll(s, m, x, actions), Tick(s, m, x);
      && (SameActions(s, m, x, AllAtOnce(actions)) ==> Akin(s, left, over, AskingSpends(s, m, x, Active(s, x))))
      && (!SameActions(s, m, x, AllAtOnce(actions)) ==> ActionsOf(left.core) != ActionsOf(over.core))
      && forall b ::
           && (b in Active(s, x) ==> SameOn(x, left, b) && b in over.memos && over.memos[b] == ReplyOf(s, m, x, b).memo)
           && (b !in Active(s, x) ==> SameOn(left, over, b))
  {
    hide Tick, Akin, ReplyOf, SameAnswers, Performed, ActionsOf, Active, EnvCommitAll, Offers, AskingSpends;
    var y := AllOver(s, m, x);
    var q := AskingSpends(s, m, x, Active(s, x));
    var offers := Sort(Offers(s, m, x, Active(s, x)), ActionOrder());
    AkinCommitAll(s, m, m, x, y, q, offers);
    CommitAllShows(s, m, x, actions);
    CommitAllShows(s, m, y, offers);
    AkinSilent(s, x, y, q);
    CommitAllKeepsMemos(s, m, x, actions);
    CommitAllKeepsMemos(s, m, y, offers);
    if SameActions(s, m, x, AllAtOnce(actions)) {
      AkinPerformed(s, m, m, x, y, q, actions, offers);
    } else {
      if ActionsOf(x.core) + Performed(s, m, x, actions) == ActionsOf(x.core) + Performed(s, m, x, offers) {
        SameTails(ActionsOf(x.core), Performed(s, m, x, actions), Performed(s, m, x, offers));
      }
    }
  }
}
