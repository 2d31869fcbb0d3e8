/** What agents, topologies and handlers of actions are shown of a world. */
module Requests {
  import opened Wrappers
  import opened Contracts
  import opened KernelState
  import opened Sorting
  import opened WorldRules
  import opened DriverRules
  import opened Views

  /** A key that the world keeps to itself. */
  predicate Hidden(key: string) {
    |key| > 0 && key[0] == '_'
  }

  lemma HiddenIsPrefixed(key: string)
    ensures Hidden(key) <==> "_" <= key
  {
  }

  /** The observation of an agent: all public facts; and of the state what is not kept hidden,
      where no public fact has the same name. */
  ghost predicate Observes(observation: Facts, w: WorldState) {
    && (forall k :: k in observation <==> k in w.publicFacts || (k in w.state && !Hidden(k)))
    && (forall k :: k in w.publicFacts ==> k in observation && observation[k] == w.publicFacts[k])
    && (forall k :: k in w.state && !Hidden(k) && k !in w.publicFacts ==> k in observation && observation[k] == w.state[k])
  }

  /** What is said to one agent is its own business. */
  ghost predicate KnowsOwn(facts: Facts, w: WorldState, agent: Agent) {
    facts == if agent in w.privateFacts then w.privateFacts[agent] else map[]
  }

  lemma ObservedState(w: WorldState)
    ensures Observes(VisibleState(w), w)
  {
    forall k ensures Hidden(k) <==> "_" <= k {
      HiddenIsPrefixed(k);
    }
  }

  /** What an agent is shown when it is invoked for a delivery: the delivery, what it may observe, its
      own facts, and of the log before it exactly the projections of the events it may see. */
  lemma ShownInSession(s: Setup, x: Session, agent: Agent, d: Delivery, invocation: nat)
    ensures var r := RequestFor(s, x, agent, d, invocation);
      && r.agent == agent && r.invocation == invocation && r.time == x.core.world.time && r.seed == x.core.rng.seed
      && r.instruction == d.content && r.inbox == [d]
      && Observes(r.observation, x.core.world) && KnowsOwn(r.privateFacts, x.core.world, agent)
      && |r.history| == |Filter(x.core.Events(), Views.Seen(agent))|
      && forall i :: 0 <= i < |r.history| ==> Filter(x.core.Events(), Views.Seen(agent))[i].Project(agent) == Some(r.history[i])
  {
    ObservedState(x.core.world);
    ViewIsFilter(x.core.Events(), agent);
    hide VisibleState, EventView, Observes, Event.Project;
  }

  /** What an environment driver shows in a tick: the task, no message and no history. */
  lemma ShownInTick(s: Setup, x: Session, agent: Agent, invocation: nat)
    ensures var r := EnvRequest(s, x, agent, invocation);
      && r.agent == agent && r.invocation == invocation && r.time == x.core.world.time && r.seed == x.core.rng.seed
      && r.instruction == s.instruction && r.inbox == [] && r.history == []
      && Observes(r.observation, x.core.world) && KnowsOwn(r.privateFacts, x.core.world, agent)
  {
    ObservedState(x.core.world);
    hide VisibleState, Observes;
  }

  /** Two sessions that differ at most in hidden state and in what others know privately, and whose
      logs show the agent the same. */
  ghost predicate SameFor(x: Session, y: Session, agent: Agent) {
    var w, v := x.core.world, y.core.world;
    && v.time == w.time && v.publicFacts == w.publicFacts && y.core.rng.seed == x.core.rng.seed
    && (forall k :: !Hidden(k) ==> (k in w.state <==> k in v.state) && (k in w.state ==> w.state[k] == v.state[k]))
    && (agent in w.privateFacts <==> agent in v.privateFacts)
    && (agent in w.privateFacts ==> w.privateFacts[agent] == v.privateFacts[agent])
    && EventView(y.core.Events(), agent) == EventView(x.core.Events(), agent)
  }

  lemma SameObservation(w: WorldState, v: WorldState, a: Facts, b: Facts)
    requires Observes(a, w) && Observes(b, v) && v.publicFacts == w.publicFacts
    requires forall k :: !Hidden(k) ==> (k in w.state <==> k in v.state) && (k in w.state ==> w.state[k] == v.state[k])
    ensures a == b
  {
    forall k ensures (k in a <==> k in b) && (k in a ==> a[k] == b[k]) {
      if k in w.publicFacts {
        assert a[k] == b[k];
      } else if k in a {
        assert a[k] == w.state[k] == b[k];
      }
    }
  }

  /** Noninterference: hidden state and what others know does not reach an agent. */
  lemma HiddenStateStaysHidden(s: Setup, x: Session, y: Session, agent: Agent, d: Delivery, invocation: nat)
    requires SameFor(x, y, agent)
    ensures RequestFor(s, y, agent, d, invocation) == RequestFor(s, x, agent, d, invocation)
    ensures EnvRequest(s, y, agent, invocation) == EnvRequest(s, x, agent, invocation)
  {
    ObservedState(x.core.world);
    ObservedState(y.core.world);
    SameObservation(x.core.world, y.core.world, VisibleState(x.core.world), VisibleState(y.core.world));
    hide VisibleState, Observes, EventView;
  }

  // ---- topologies and handlers ----

  /** What they are shown: the world as it is, all agents in manifest order with their roles, and
      those of them that take part. */
  lemma ShownToPlugins(s: Setup, w: WorldState)
    ensures var v := ViewOf(s, w);
      && v.time == w.time && v.state == w.state && v.publicFacts == w.publicFacts && v.privateFacts == w.privateFacts
      && v.payoffs == w.payoffs
      && |v.agents| == |s.agents| && (forall i :: 0 <= i < |s.agents| ==> v.agents[i] == s.agents[i].id)
      && (forall a :: a in v.active <==> a in v.agents && a !in w.dropped)
      && (w.dropped == {} ==> v.active == v.agents)
      && (Distinct(v.agents) ==> forall a :: a in s.agents ==> a.id in v.roles && v.roles[a.id] == a.role)
      && (forall id :: id in v.roles ==> id in v.agents)
  {
    var v := ViewOf(s, w);
    FilterElements(s.AgentIds(), TakesPart(w.dropped));
    RolesAreTheirs(s.agents);
    if w.dropped == {} {
      FilterAll(s.AgentIds(), TakesPart(w.dropped));
    }
    assert forall i :: 0 <= i < |s.agents| ==> v.agents[i] == s.agents[i].id;
    if Distinct(v.agents) {
      assert forall i, j :: 0 <= i < j < |s.agents| ==> v.agents[i] != v.agents[j];
      forall a | a in s.agents ensures a.id in v.roles && v.roles[a.id] == a.role {
        var i :| 0 <= i < |s.agents| && s.agents[i] == a;
        RoleOf(s.agents, i);
      }
    }
    forall id | id in v.roles ensures id in v.agents {
      var a :| a in s.agents && a.id == id;
      var i :| 0 <= i < |s.agents| && s.agents[i] == a;
      assert v.agents[i] == id;
    }
  }

  lemma {:induction false} RolesAreTheirs(agents: seq<AgentSpec>)
    ensures forall id :: id in RolesOf(agents) ==> exists a :: a in agents && a.id == id
  {
    if |agents| > 0 {
      var front, last := agents[..|agents| - 1], agents[|agents| - 1];
      RolesAreTheirs(front);
      forall id | id in RolesOf(agents) ensures exists a :: a in agents && a.id == id {
        if id == last.id {
          assert last in agents;
        } else {
          assert id in RolesOf(front);
          var a :| a in front && a.id == id;
          assert a in agents;
        }
      }
    }
  }

  lemma {:induction false} RoleOf(agents: seq<AgentSpec>, i: nat)
    requires i < |agents| && forall j, k :: 0 <= j < k < |agents| ==> agents[j].id != agents[k].id
    ensures agents[i].id in RolesOf(agents) && RolesOf(agents)[agents[i].id] == agents[i].role
  {
    var front := agents[..|agents| - 1];
    if i < |front| {
      assert forall j, k :: 0 <= j < k < |front| ==> front[j] == agents[j] && front[k] == agents[k] && front[j].id != front[k].id;
      RoleOf(front, i);
    }
  }
}
