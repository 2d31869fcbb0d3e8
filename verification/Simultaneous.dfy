/** Simultaneous actions: what a parallel tick leaves behind does not depend on the order in
    which the agents were asked. */
module Simultaneous {
  import opened Wrappers
  import opened Contracts
  import opened KernelState
  import opened Sorting
  import opened WorldRules
  import opened DriverRules

  // ---- the order of actions ----

  lemma {:induction false} TextLeTotal(a: string, b: string)
    ensures TextLe(a, b) || TextLe(b, a)
    ensures TextLe(a, b) && TextLe(b, a) ==> a == b
    decreases |a|
  {
    if |a| > 0 && |b| > 0 && a[0] == b[0] {
      TextLeTotal(a[1..], b[1..]);
      assert a == [a[0]] + a[1..] && b == [b[0]] + b[1..];
    }
  }

  lemma {:induction false} TextLeTransitive(a: string, b: string, c: string)
    requires TextLe(a, b) && TextLe(b, c)
    ensures TextLe(a, c)
    decreases |a|
  {
    if |a| > 0 && a[0] == b[0] == c[0] {
      TextLeTransitive(a[1..], b[1..], c[1..]);
    }
  }

  lemma ActionOrderIsTotal()
    ensures TotalPreorder(ActionOrder())
  {
    var le := ActionOrder();
    forall x, y ensures le(x, y) || le(y, x) {
      TextLeTotal(x.kind, y.kind);
      TextLeTotal(x.actor, y.actor);
    }
    forall x, y, z | le(x, y) && le(y, z) ensures le(x, z) {
      ActionOrderTransitive(x, y, z);
    }
  }

  lemma ActionOrderTransitive(x: Action, y: Action, z: Action)
    requires ActionOrder()(x, y) && ActionOrder()(y, z)
    ensures ActionOrder()(x, z)
  {
    hide TextLe;
    TextLeTotal(x.kind, y.kind);
    TextLeTotal(y.kind, z.kind);
    if x.kind == y.kind == z.kind {
      TextLeTransitive(x.actor, y.actor, z.actor);
    } else if x.kind != y.kind && y.kind != z.kind {
      TextLeTransitive(x.kind, y.kind, z.kind);
      TextLeTotal(x.kind, z.kind);
    }
  }

  lemma AlikeActions(a: Action, b: Action)
    requires Alike(b, ActionOrder())(a)
    ensures a.kind == b.kind && a.actor == b.actor
  {
    TextLeTotal(a.kind, b.kind);
    TextLeTotal(a.actor, b.actor);
  }

  // ---- the actions of several agents ----

  /** Each agent's own actions, in the order it takes them. */
  type Plan = Agent -> seq<Action>

  ghost predicate OwnActions(plan: Plan) {
    forall a: Agent :: forall x :: x in plan(a) ==> x.actor == a
  }

  function Together(plan: Plan, agents: seq<Agent>): seq<Action> {
    if |agents| == 0 then [] else Together(plan, agents[..|agents| - 1]) + plan(agents[|agents| - 1])
  }

  /** Among the actions of all, those like `r` are those of `r`'s own agent. */
  lemma {:induction false} ClassOfOne(plan: Plan, agents: seq<Agent>, r: Action)
    requires OwnActions(plan) && Distinct(agents)
    ensures Class(Together(plan, agents), r, ActionOrder())
         == if r.actor in agents then Class(plan(r.actor), r, ActionOrder()) else []
  {
    if |agents| > 0 {
      var front, last := agents[..|agents| - 1], agents[|agents| - 1];
      ClassOfOne(plan, front, r);
      FilterConcat(Together(plan, front), plan(last), Alike(r, ActionOrder()));
      assert agents == front + [last];
      if last != r.actor {
        forall x | x in plan(last) ensures !Alike(r, ActionOrder())(x) {
          if Alike(r, ActionOrder())(x) {
            AlikeActions(x, r);
          }
        }
        FilterNone(plan(last), Alike(r, ActionOrder()));
      } else {
        assert r.actor !in front;
      }
    }
  }

  lemma SameMembers(agents: seq<Agent>, others: seq<Agent>)
    requires multiset(agents) == multiset(others)
    ensures forall a :: a in agents <==> a in others
  {
    forall a ensures a in agents <==> a in others {
      assert a in agents <==> a in multiset(agents);
      assert a in others <==> a in multiset(others);
    }
  }

  /** The committed order of simultaneous actions is the same for every order of visiting the agents. */
  lemma OrderOfVisitsIsInvisible(plan: Plan, agents: seq<Agent>, others: seq<Agent>)
    requires OwnActions(plan) && Distinct(agents) && Distinct(others) && multiset(agents) == multiset(others)
    ensures Sort(Together(plan, agents), ActionOrder()) == Sort(Together(plan, others), ActionOrder())
  {
    ActionOrderIsTotal();
    SameMembers(agents, others);
    forall r ensures Class(Together(plan, agents), r, ActionOrder()) == Class(Together(plan, others), r, ActionOrder()) {
      ClassOfOne(plan, agents, r);
      ClassOfOne(plan, others, r);
    }
    SortCanonical(Together(plan, agents), Together(plan, others), ActionOrder());
  }

  // ---- the whole tick ----

  /** The agents do not look at the number of their invocation. */
  ghost predicate NumberBlind(m: Minds) {
    forall agent: Agent, memo: Memo, r: Request, n: nat :: m.invoke(agent, memo, r.(invocation := n)) == m.invoke(agent, memo, r)
  }

  function AnswerOf(s: Setup, m: Minds, x: Session): Agent -> Reply {
    (agent: Agent) => m.invoke(agent, MemoOf(x, agent), EnvRequest(s, x, agent, 0))
  }

  function ActionsIn(agent: Agent, emissions: seq<Emission>): seq<Action>
    decreases |emissions|
  {
    if |emissions| == 0 then []
    else if emissions[0].kind.EmitAction? then [ActionOf(agent, emissions[0])] + ActionsIn(agent, emissions[1..])
    else ActionsIn(agent, emissions[1..])
  }

  function PlanOf(s: Setup, m: Minds, x: Session): Plan {
    (agent: Agent) => ActionsIn(agent, AnswerOf(s, m, x)(agent).emissions)
  }

  function Spent(emissions: seq<Emission>): ResourceDelta
    decreases |emissions|
  {
    if |emissions| == 0 then NoResources else emissions[0].delta.Plus(Spent(emissions[1..]))
  }

  function SpentBy(s: Setup, m: Minds, x: Session, agents: seq<Agent>): ResourceDelta {
    if |agents| == 0 then NoResources
    else SpentBy(s, m, x, agents[..|agents| - 1]).Plus(Spent(AnswerOf(s, m, x)(agents[|agents| - 1]).emissions))
  }

  function Added(x: Session, spent: ResourceDelta): Session {
    x.(core := x.core.(world := x.core.world.(resources := x.core.world.resources.Plus(spent)),
                       ledger := x.core.ledger.(unlogged := x.core.ledger.unlogged.Plus(spent))))
  }

  function Told(s: Setup, m: Minds, x: Session, agents: seq<Agent>): map<Agent, Memo> {
    map a | a in x.memos.Keys + (set b | b in agents) :: if a in agents then AnswerOf(s, m, x)(a).memo else x.memos[a]
  }

  /** What asking the agents leaves behind: resources, cursors and the number of invocations. */
  function Asked(s: Setup, m: Minds, x: Session, agents: seq<Agent>): Session {
    Added(x, SpentBy(s, m, x, agents)).(
      driver := x.driver.(invocations := x.driver.invocations + |agents|), memos := Told(s, m, x, agents))
  }

  lemma PlusFacts(a: ResourceDelta, b: ResourceDelta, c: ResourceDelta)
    ensures a.Plus(b).Plus(c) == a.Plus(b.Plus(c)) && a.Plus(b) == b.Plus(a) && a.Plus(NoResources) == a
  {
  }

  lemma AddedTwice(x: Session, a: ResourceDelta, b: ResourceDelta)
    ensures Added(Added(x, a), b) == Added(x, a.Plus(b)) && Added(x, NoResources) == x
  {
    PlusFacts(x.core.world.resources, a, b);
    PlusFacts(x.core.ledger.unlogged, a, b);
  }

  lemma {:induction false} StreamCollects(
      s: Setup, m: Minds, x: Session, agent: Agent, emissions: seq<Emission>, collected: seq<Action>)
    requires s.driver.ParallelDriven?
    ensures EnvStream(s, m, x, agent, emissions, collected)
         == (Added(x, Spent(emissions)), collected + ActionsIn(agent, emissions))
    decreases |emissions|
  {
    if |emissions| == 0 {
      AddedTwice(x, NoResources, NoResources);
      assert collected + [] == collected;
    } else {
      var em := emissions[0];
      var x1 := x.(core := EnvCharge(x.core, em));
      assert x1 == Added(x, em.delta);
      hide Added;
      AddedTwice(x, em.delta, Spent(emissions[1..]));
      if em.kind.EmitAction? {
        StreamCollects(s, m, x1, agent, emissions[1..], collected + [ActionOf(agent, em)]);
        assert (collected + [ActionOf(agent, em)]) + ActionsIn(agent, emissions[1..])
            == collected + ([ActionOf(agent, em)] + ActionsIn(agent, emissions[1..]));
      } else {
        StreamCollects(s, m, x1, agent, emissions[1..], collected);
      }
    }
  }

  /** Asking an agent after others have been asked gets the answer it would give first. */
  lemma SameAnswer(s: Setup, m: Minds, x: Session, y: Session, agent: Agent, n: nat)
    requires NumberBlind(m)
    requires y.core.world == x.core.world.(resources := y.core.world.resources) && y.core.rng == x.core.rng
    requires MemoOf(y, agent) == MemoOf(x, agent)
    ensures m.invoke(agent, MemoOf(y, agent), EnvRequest(s, y, agent, n)) == AnswerOf(s, m, x)(agent)
  {
    assert EnvRequest(s, y, agent, n) == EnvRequest(s, x, agent, 0).(invocation := n);
  }

  lemma {:induction false} AskingInTurn(s: Setup, m: Minds, x: Session, done: seq<Agent>, agents: seq<Agent>, collected: seq<Action>)
    requires s.driver.ParallelDriven? && NumberBlind(m) && Distinct(done + agents) && !x.core.world.finished
    requires collected == Together(PlanOf(s, m, x), done)
    ensures EnvAgents(s, m, Asked(s, m, x, done), agents, collected)
         == (Asked(s, m, x, done + agents), Together(PlanOf(s, m, x), done + agents))
    decreases |agents|
  {
    if |agents| == 0 {
      assert done + agents == done;
    } else {
      var a := agents[0];
      NextIsNew(done, agents);
      hide Distinct, Asked, EnvTurn, NumberBlind, PlanOf;
      TurnOfOne(s, m, x, done, a, collected);
      AskedIsGoingOn(s, m, x, done + [a]);
      AskingInTurn(s, m, x, done + [a], agents[1..], collected + PlanOf(s, m, x)(a));
    }
  }

  lemma NextIsNew(done: seq<Agent>, agents: seq<Agent>)
    requires |agents| > 0 && Distinct(done + agents)
    ensures agents[0] !in done && (done + [agents[0]]) + agents[1..] == done + agents
  {
    forall i | 0 <= i < |done| ensures done[i] != agents[0] {
      assert (done + agents)[i] == done[i] && (done + agents)[|done|] == agents[0];
    }
  }

  lemma AskedIsGoingOn(s: Setup, m: Minds, x: Session, agents: seq<Agent>)
    ensures Asked(s, m, x, agents).core.world.finished == x.core.world.finished
  {
  }

  lemma TurnOfOne(s: Setup, m: Minds, x: Session, done: seq<Agent>, a: Agent, collected: seq<Action>)
    requires s.driver.ParallelDriven? && NumberBlind(m) && a !in done && collected == Together(PlanOf(s, m, x), done)
    ensures EnvTurn(s, m, Asked(s, m, x, done), a, collected)
         == (Asked(s, m, x, done + [a]), collected + PlanOf(s, m, x)(a))
    ensures Together(PlanOf(s, m, x), done + [a]) == collected + PlanOf(s, m, x)(a)
  {
    var y := Asked(s, m, x, done);
    var n := y.driver.invocations + 1;
    SameAnswer(s, m, x, y, a, n);
    var reply := AnswerOf(s, m, x)(a);
    assert (done + [a])[..|done|] == done;
    AskedNext(s, m, x, done, a);
    hide EnvStream, Told, ActionsIn, Spent, SpentBy, Asked, NumberBlind, MemoOf, EnvRequest;
    var z := y.(driver := y.driver.(invocations := n), memos := y.memos[a := reply.memo]);
    StreamCollects(s, m, z, a, reply.emissions, collected);
  }

  lemma AskedNext(s: Setup, m: Minds, x: Session, done: seq<Agent>, a: Agent)
    requires a !in done
    ensures var y, reply := Asked(s, m, x, done), AnswerOf(s, m, x)(a);
      Asked(s, m, x, done + [a]) == Added(y, Spent(reply.emissions)).(
        driver := y.driver.(invocations := y.driver.invocations + 1), memos := y.memos[a := reply.memo])
  {
    var reply := AnswerOf(s, m, x)(a);
    assert (done + [a])[..|done|] == done;
    assert Told(s, m, x, done)[a := reply.memo] == Told(s, m, x, done + [a]);
    var before, now := SpentBy(s, m, x, done), Spent(reply.emissions);
    assert SpentBy(s, m, x, done + [a]) == before.Plus(now);
    AddedTwice(x, before, now);
    AddedBeside(Added(x, before), now, x.driver.(invocations := x.driver.invocations + |done|), Told(s, m, x, done));
    hide Told, Spent, AnswerOf, SpentBy, Added;
  }

  lemma AddedBeside(x: Session, spent: ResourceDelta, driver: Driver, memos: map<Agent, Memo>)
    ensures Added(x.(driver := driver, memos := memos), spent) == Added(x, spent).(driver := driver, memos := memos)
  {
  }

  // ---- two orders of asking ----

  lemma {:induction false} SpentSplit(s: Setup, m: Minds, x: Session, a: seq<Agent>, b: seq<Agent>)
    ensures SpentBy(s, m, x, a + b) == SpentBy(s, m, x, a).Plus(SpentBy(s, m, x, b))
  {
    if |b| == 0 {
      assert a + b == a;
      PlusFacts(SpentBy(s, m, x, a), NoResources, NoResources);
    } else {
      var front, last := b[..|b| - 1], b[|b| - 1];
      assert (a + b)[..|a + b| - 1] == a + front;
      SpentSplit(s, m, x, a, front);
      PlusFacts(SpentBy(s, m, x, a), SpentBy(s, m, x, front), Spent(AnswerOf(s, m, x)(last).emissions));
    }
  }

  lemma SpentAround(s: Setup, m: Minds, x: Session, before: seq<Agent>, a: Agent, after: seq<Agent>)
    ensures SpentBy(s, m, x, before + [a] + after) == SpentBy(s, m, x, before + after + [a])
  {
    hide Spent, AnswerOf;
    var p, q, r := SpentBy(s, m, x, before), SpentBy(s, m, x, [a]), SpentBy(s, m, x, after);
    SpentSplit(s, m, x, before + [a], after);
    SpentSplit(s, m, x, before, [a]);
    SpentSplit(s, m, x, before + after, [a]);
    SpentSplit(s, m, x, before, after);
    hide SpentBy;
    PlusFacts(p, q, r);
    PlusFacts(p, r, q);
    PlusFacts(q, r, p);
  }

  lemma WithoutOne(front: seq<Agent>, last: Agent, before: seq<Agent>, after: seq<Agent>)
    requires multiset(front + [last]) == multiset(before + [last] + after)
    ensures multiset(front) == multiset(before + after)
  {
    assert multiset(before + [last] + after) == multiset(before) + multiset{last} + multiset(after);
    assert multiset(front) == multiset(front + [last]) - multiset{last};
    assert multiset(before + after) == multiset(before + [last] + after) - multiset{last};
  }

  lemma {:induction false} SpentInAnyOrder(s: Setup, m: Minds, x: Session, agents: seq<Agent>, others: seq<Agent>)
    requires multiset(agents) == multiset(others)
    ensures SpentBy(s, m, x, agents) == SpentBy(s, m, x, others) && |agents| == |others|
    decreases |agents|
  {
    hide Spent, AnswerOf;
    assert |agents| == |multiset(agents)| == |multiset(others)| == |others|;
    if |agents| > 0 {
      var front, last := agents[..|agents| - 1], agents[|agents| - 1];
      assert agents == front + [last];
      assert last in multiset(others);
      var k :| 0 <= k < |others| && others[k] == last;
      var before, after := others[..k], others[k + 1..];
      assert others == before + [last] + after;
      WithoutOne(front, last, before, after);
      SpentInAnyOrder(s, m, x, front, before + after);
      SpentAround(s, m, x, before, last, after);
      SpentSplit(s, m, x, front, [last]);
      SpentSplit(s, m, x, before + after, [last]);
    }
  }

  lemma ToldInAnyOrder(s: Setup, m: Minds, x: Session, agents: seq<Agent>, others: seq<Agent>)
    requires multiset(agents) == multiset(others)
    ensures Told(s, m, x, agents) == Told(s, m, x, others)
  {
    SameMembers(agents, others);
    assert (set b | b in agents) == (set b | b in others);
  }

  /** A tick over the given order of agents. */
  function TickOver(s: Setup, m: Minds, x: Session, agents: seq<Agent>): Session {
    var (x', collected) := EnvAgents(s, m, x, agents, []);
    EnvCommitAll(s, m, x', Sort(collected, ActionOrder()))
  }

  lemma PlanIsOwn(s: Setup, m: Minds, x: Session)
    ensures OwnActions(PlanOf(s, m, x))
  {
    forall a: Agent ensures forall y :: y in PlanOf(s, m, x)(a) ==> y.actor == a {
      ActionsAreOwn(a, AnswerOf(s, m, x)(a).emissions);
    }
  }

  lemma {:induction false} ActionsAreOwn(agent: Agent, emissions: seq<Emission>)
    ensures forall y :: y in ActionsIn(agent, emissions) ==> y.actor == agent
    decreases |emissions|
  {
    if |emissions| > 0 {
      ActionsAreOwn(agent, emissions[1..]);
    }
  }

  lemma NothingAsked(s: Setup, m: Minds, x: Session)
    ensures Asked(s, m, x, []) == x
  {
    AddedTwice(x, NoResources, NoResources);
    assert Told(s, m, x, []) == x.memos;
  }

  lemma TickIsOneOrder(s: Setup, m: Minds, x: Session)
    requires s.driver.ParallelDriven?
    ensures Tick(s, m, x) == TickOver(s, m, x, ActiveAgents(s, x.core.world.dropped))
  {
  }

  /** In parallel mode the whole session after a tick, log and world included, is the same for
      every order in which the agents that take part are visited. */
  lemma ParallelTickIsOrderFree(s: Setup, m: Minds, x: Session, agents: seq<Agent>)
    requires s.driver.ParallelDriven? && NumberBlind(m) && !x.core.world.finished && Distinct(s.AgentIds())
    requires multiset(agents) == multiset(ActiveAgents(s, x.core.world.dropped))
    ensures Tick(s, m, x) == TickOver(s, m, x, agents)
  {
    var active := ActiveAgents(s, x.core.world.dropped);
    DistinctPart(s.AgentIds(), TakesPart(x.core.world.dropped));
    DistinctAgain(active, agents);
    TickIsOneOrder(s, m, x);
    hide Tick, TickOver, NumberBlind, ActiveAgents, Distinct;
    TicksAlike(s, m, x, active, agents);
  }

  /** A permutation of distinct agents. */
  lemma DistinctAgain(agents: seq<Agent>, others: seq<Agent>)
    requires Distinct(agents) && multiset(agents) == multiset(others)
    ensures Distinct(others)
  {
    forall i, j | 0 <= i < j < |others| ensures others[i] != others[j] {
      if others[i] == others[j] {
        TwiceIn(others, i, j);
        OnceIn(agents, others[i]);
      }
    }
  }

  lemma TwiceIn(agents: seq<Agent>, i: nat, j: nat)
    requires i < j < |agents| && agents[i] == agents[j]
    ensures multiset(agents)[agents[i]] >= 2
  {
    assert agents == agents[..i] + [agents[i]] + agents[i + 1..j] + [agents[j]] + agents[j + 1..];
  }

  lemma TicksAlike(s: Setup, m: Minds, x: Session, agents: seq<Agent>, others: seq<Agent>)
    requires s.driver.ParallelDriven? && NumberBlind(m) && !x.core.world.finished
    requires Distinct(agents) && Distinct(others) && multiset(agents) == multiset(others)
    ensures TickOver(s, m, x, agents) == TickOver(s, m, x, others)
  {
    var plan := PlanOf(s, m, x);
    hide EnvAgents, EnvCommitAll, PlanOf, Told, SpentBy, Distinct;
    NothingAsked(s, m, x);
    PlanIsOwn(s, m, x);
    assert [] + agents == agents && [] + others == others;
    AskingInTurn(s, m, x, [], agents, []);
    AskingInTurn(s, m, x, [], others, []);
    OrderOfVisitsIsInvisible(plan, agents, others);
    SpentInAnyOrder(s, m, x, agents, others);
    ToldInAnyOrder(s, m, x, agents, others);
  }

  // ---- what the order is ----

  /** The texts first differ at `i`, and `a` has the smaller character there. */
  ghost predicate FirstLess(a: string, b: string, i: nat) {
    i < |a| && i < |b| && (forall k :: 0 <= k < i ==> a[k] == b[k]) && a[i] < b[i]
  }

  /** `a` comes before `b` in a dictionary, or is the same. */
  ghost predicate InDictionary(a: string, b: string) {
    a <= b || exists i: nat :: FirstLess(a, b, i)
  }

  lemma {:induction false} TextIsDictionary(a: string, b: string)
    ensures TextLe(a, b) <==> InDictionary(a, b)
  {
    if |a| > 0 && |b| > 0 {
      if a[0] == b[0] {
        TextIsDictionary(a[1..], b[1..]);
        assert a == [a[0]] + a[1..] && b == [b[0]] + b[1..];
        assert a <= b <==> a[1..] <= b[1..];
        forall i: nat ensures FirstLess(a, b, i + 1) <==> FirstLess(a[1..], b[1..], i) {
          LessShifted(a, b, i);
        }
        assert !FirstLess(a, b, 0);
        if exists i: nat :: FirstLess(a, b, i) {
          var i: nat :| FirstLess(a, b, i);
          assert i > 0 && FirstLess(a, b, i - 1 + 1);
          assert FirstLess(a[1..], b[1..], i - 1);
        }
        if exists i: nat :: FirstLess(a[1..], b[1..], i) {
          var i: nat :| FirstLess(a[1..], b[1..], i);
          assert FirstLess(a, b, i + 1);
        }
      } else {
        assert a[0] < b[0] ==> FirstLess(a, b, 0);
        assert forall i: nat :: FirstLess(a, b, i) ==> i == 0;
      }
    }
  }

  lemma LessShifted(a: string, b: string, i: nat)
    requires |a| > 0 && |b| > 0 && a[0] == b[0]
    ensures FirstLess(a, b, i + 1) <==> FirstLess(a[1..], b[1..], i)
  {
    if FirstLess(a, b, i + 1) {
      assert forall k :: 0 <= k < i ==> a[1..][k] == a[k + 1] && b[1..][k] == b[k + 1];
    }
    if FirstLess(a[1..], b[1..], i) {
      forall k | 0 <= k < i + 1 ensures a[k] == b[k] {
        if k > 0 {
          assert a[1..][k - 1] == b[1..][k - 1];
        }
      }
    }
  }

  /** Simultaneous actions are committed by kind, and those of one kind by agent, as in a dictionary. */
  lemma CommittedInOrder(actions: seq<Action>, i: nat, j: nat)
    requires i < j < |Sort(actions, ActionOrder())|
    ensures var a, b := Sort(actions, ActionOrder())[i], Sort(actions, ActionOrder())[j];
      InDictionary(a.kind, b.kind) && (a.kind == b.kind ==> InDictionary(a.actor, b.actor))
  {
    ActionOrderIsTotal();
    SortSorted(actions, ActionOrder());
    var a, b := Sort(actions, ActionOrder())[i], Sort(actions, ActionOrder())[j];
    TextIsDictionary(a.kind, b.kind);
    TextIsDictionary(a.actor, b.actor);
    hide Sort;
  }
}
