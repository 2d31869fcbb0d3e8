/** When the environment driver does not end: with a clock step that is not positive and agents
    that never act, an iteration changes nothing its loop condition reads. */
module Liveness {
  import opened Wrappers
  import opened Contracts
  import opened KernelState
  import opened Sorting
  import opened WorldRules
  import opened DriverRules

  ghost predicate Inert(emissions: seq<Emission>) {
    forall em :: em in emissions ==> !em.kind.EmitAction?
  }

  /** The agents emit no action, whatever they are asked. */
  ghost predicate Idle(m: Minds) {
    forall agent: Agent, memo: Memo, r: Request :: Inert(m.invoke(agent, memo, r).emissions)
  }

  /** Same log, same clock, same end. */
  predicate Unmoved(x: Session, y: Session) {
    && y.core.journal == x.core.journal
    && y.core.world.time == x.core.world.time
    && y.core.world.finished == x.core.world.finished
    && y.core.world.dropped == x.core.world.dropped
  }

  lemma {:induction false} InertStream(
      s: Setup, m: Minds, x: Session, agent: Agent, emissions: seq<Emission>, collected: seq<Action>)
    requires Inert(emissions)
    ensures var (y, actions) := EnvStream(s, m, x, agent, emissions, collected);
      Unmoved(x, y) && actions == collected
    decreases |emissions|
  {
    if |emissions| > 0 {
      var x1 := x.(core := EnvCharge(x.core, emissions[0]));
      assert emissions[0] in emissions && Inert(emissions[1..]);
      InertStream(s, m, x1, agent, emissions[1..], collected);
    }
  }

  lemma {:induction false} IdleAgents(s: Setup, m: Minds, x: Session, agents: seq<Agent>, collected: seq<Action>)
    requires Idle(m)
    ensures var (y, actions) := EnvAgents(s, m, x, agents, collected);
      Unmoved(x, y) && actions == collected
    decreases |agents|
  {
    if |agents| > 0 {
      var agent, n := agents[0], x.driver.invocations + 1;
      var reply := m.invoke(agent, MemoOf(x, agent), EnvRequest(s, x, agent, n));
      var x1 := x.(driver := x.driver.(invocations := n), memos := x.memos[agent := reply.memo]);
      InertStream(s, m, x1, agent, reply.emissions, collected);
      hide EnvStream;
      var (y, actions) := EnvTurn(s, m, x, agent, collected);
      IdleAgents(s, m, y, agents[1..], collected);
    }
  }

  lemma IdleRound(s: Setup, m: Minds, x: Session)
    requires Idle(m) && s.clockStep <= 0
    ensures Unmoved(x, EndRound(s, Tick(s, m, x)))
  {
    hide EnvAgents, Idle;
    IdleAgents(s, m, x, ActiveAgents(s, x.core.world.dropped), []);
  }

  function Rounds(s: Setup, m: Minds, x: Session, n: nat): Session {
    if n == 0 then x else EndRound(s, Tick(s, m, Rounds(s, m, x, n - 1)))
  }

  /** The condition of the environment loop. */
  predicate GoesOn(s: Setup, x: Session) {
    !x.core.world.finished && x.core.world.time <= s.limits.maxLogicalTime && x.core.journal.sequence < s.limits.maxEvents
  }

  /** However many iterations there were, the loop goes on. */
  lemma {:induction false} NeverEnds(s: Setup, m: Minds, x: Session, n: nat)
    requires Idle(m) && s.clockStep <= 0 && GoesOn(s, x)
    ensures GoesOn(s, Rounds(s, m, x, n)) && Unmoved(x, Rounds(s, m, x, n))
  {
    hide Tick, EndRound, Idle;
    if n > 0 {
      NeverEnds(s, m, x, n - 1);
      IdleRound(s, m, Rounds(s, m, x, n - 1));
    }
  }
}
