/** What a tick comes to: the actions it performs, what it spends, and what the agents remember.
    The log shows the actions, one after the other, so two ticks from akin sessions log the same
    work if and only if they perform the same actions. */
module TickActions {
  import opened Wrappers
  import opened Contracts
  import opened KernelState
  import opened Sorting
  import opened Scheduler
  import opened Journals
  import opened WorldRules
  import opened DriverRules
  import opened Growth
  import opened Equivalence
  import opened Resumption
  import opened EnvResumption
  import opened Kinship

  // ---- the actions a log shows ----

  function ActionShown(d: Deed): seq<Action> {
    if d.kind.ActionTaken? && d.body.Acted? then [Action(d.body.action, d.actor, d.body.args)] else []
  }

  function ActionsIn(work: seq<Deed>): seq<Action> {
    if |work| == 0 then [] else ActionsIn(work[..|work| - 1]) + ActionShown(work[|work| - 1])
  }

  function ActionsOf(c: Core): seq<Action> {
    ActionsIn(Deeds(c.Events()))
  }

  lemma EmitShows(c: Core, d: Draft)
    ensures ActionsOf(Emit(c, d)) == ActionsOf(c) +
      (if d.kind.ActionTaken? && d.body.Acted? then [Action(d.body.action, d.actor, d.body.args)] else [])
  {
    var e := Stamp(c.journal.attempt, c.journal.sequence, c.journal.index, d);
    DeedsSnoc(c.Events(), e);
    assert (Deeds(c.Events()) + [DeedOf(e)])[..|Deeds(c.Events())|] == Deeds(c.Events());
    assert Deeds(c.Events()) + [] == Deeds(c.Events());
    hide Deeds;
  }

  ghost predicate Silent(c: Core, c': Core) {
    ActionsOf(c') == ActionsOf(c)
  }

  lemma EmitSilent(c: Core, d: Draft)
    requires !d.kind.ActionTaken?
    ensures Silent(c, Emit(c, d))
  {
    EmitShows(c, d);
    hide Emit, ActionsOf;
    assert ActionsOf(c) + [] == ActionsOf(c);
  }

  lemma SameLogSilent(c: Core, c': Core)
    requires c'.Events() == c.Events()
    ensures Silent(c, c')
  {
  }

  lemma ApplyFaultSilent(s: Setup, c: Core, index: nat, item: Item)
    requires index < |s.faults|
    ensures Silent(c, ApplyFault(s, c, index, item).0)
  {
    var c1 := FaultFires(s, c, index).0;
    var c2 := c1.(ledger := c1.ledger.(fired := Bump(c1.ledger.fired, index)));
    var d := FaultDraft(s.faults[index].kind, c1.world.time, item.delivery);
    SameLogSilent(c, c2);
    EmitSilent(c2, d);
    hide ActionsOf, Corrupt, AppliesTo, Emit, Bump;
    assert ApplyFault(s, c, index, item).0.Events() in {c.Events(), Emit(c2, d).Events()};
    if ApplyFault(s, c, index, item).0.Events() == c.Events() {
      SameLogSilent(c, ApplyFault(s, c, index, item).0);
    } else {
      SameLogSilent(Emit(c2, d), ApplyFault(s, c, index, item).0);
    }
  }

  lemma {:induction false} ApplyFaultsSilent(s: Setup, c: Core, item: Item, count: nat)
    requires count <= |s.faults|
    ensures Silent(c, ApplyFaults(s, c, item, count).0)
  {
    hide ApplyFault, ActionsOf;
    if count > 0 {
      ApplyFaultsSilent(s, c, item, count - 1);
      var (c', o) := ApplyFaults(s, c, item, count - 1);
      match o {
        case None =>
        case Some(i) => ApplyFaultSilent(s, c', count - 1, i);
      }
    }
  }

  lemma EnqueueSilent(s: Setup, c: Core, d: Delivery, orderHint: int)
    ensures Silent(c, Enqueue(s, c, d, orderHint))
  {
    hide ApplyFaults, ActionsOf, Emit, Utf8Size;
    EmitSilent(c, PublicDraft(PolicyDecided, WORLD_ACTOR, c.world.time, Policy("unknown_recipient", false, d.recipient, 0)));
    EmitSilent(c, PublicDraft(PolicyDecided, WORLD_ACTOR, c.world.time, Policy("recipient_dropped_out", false, d.recipient, 0)));
    EmitSilent(c, PublicDraft(PolicyDecided, WORLD_ACTOR, c.world.time, Policy("max_message_bytes", false, "bytes", Utf8Size(d.content))));
    var item := Scheduled(s, c.world, d, orderHint);
    ApplyFaultsSilent(s, c, item, |s.faults|);
    match ApplyFaults(s, c, item, |s.faults|) {
      case (c', None) =>
      case (c', Some(i)) => SameLogSilent(c', Accept(c', i, Utf8Size(d.content)));
    }
  }

  lemma {:induction false} EnqueueAllSilent(s: Setup, c: Core, ds: seq<Delivery>, orderHint: int)
    ensures Silent(c, EnqueueAll(s, c, ds, orderHint))
  {
    hide Enqueue, ActionsOf;
    if |ds| > 0 {
      EnqueueAllSilent(s, c, ds[..|ds| - 1], orderHint);
      EnqueueSilent(s, EnqueueAll(s, c, ds[..|ds| - 1], orderHint), ds[|ds| - 1], orderHint);
    }
  }

  lemma ApplyChangeSilent(s: Setup, c: Core, action: Action, change: Change)
    ensures Silent(c, ApplyChange(s, c, action, change))
  {
    hide EnqueueAll, GrantFacts, ActionsOf, Emit;
    EmitSilent(c, PublicDraft(PolicyDecided, WORLD_ACTOR, c.world.time, Policy("action_rejected", false, change.rejected, 0)));
    var c1 := c.(world := c.world.(
      state := c.world.state + change.updates,
      privateFacts := GrantFacts(c.world.privateFacts, change.factsTo)));
    SameLogSilent(c, c1);
    EnqueueAllSilent(s, c1, change.messages, 0);
    var c2 := EnqueueAll(s, c1, change.messages, 0);
    var c3 := if change.finished
              then c2.(world := c2.world.(
                     finished := true,
                     finishReason := if change.note != "" then change.note else "action:" + action.kind))
              else c2;
    SameLogSilent(c2, c3);
    EmitSilent(c3, ChangedDraft(action, change, c3.world.time));
  }

  lemma TakeActionShows(s: Setup, c: Core, action: Action)
    ensures ActionsOf(TakeAction(s, c, action, NoResources)) == ActionsOf(c) + [action]
  {
    hide ApplyChange, ActionsOf, Emit;
    var d := PublicDraft(ActionTaken, action.actor, c.world.time, Acted(action.kind, action.args)).(delta := NoResources);
    EmitShows(c, d);
    var c1 := Emit(c, d);
    match s.handle(action, ViewOf(s, c1.world)) {
      case None => EmitSilent(c1, PublicDraft(PolicyDecided, WORLD_ACTOR, c1.world.time, Policy("unknown_action", false, action.kind, 0)));
      case Some(change) => ApplyChangeSilent(s, c1, action, change);
    }
  }

  lemma AlikeShows(s: Setup, x: Session, y: Session)
    requires EnvAlike(s, x, y)
    ensures ActionsOf(y.core) == ActionsOf(x.core)
  {
    hide Deeds, Canon;
  }

  lemma CommitShows(s: Setup, m: Minds, x: Session, action: Action)
    ensures ActionsOf(EnvCommit(s, m, x, action).core) == ActionsOf(x.core) + [action]
  {
    hide ActionsOf, TakeAction, MaybeCheckpoint, EnvAlike;
    TakeActionShows(s, x.core, action);
    var y := x.(core := TakeAction(s, x.core, action, NoResources));
    CheckpointAside(s, m, y);
    AlikeShows(s, y, MaybeCheckpoint(s, m, y));
  }

  // ---- committing actions ----

  /** Those of the actions that are performed: all, or those up to the one that finishes the episode. */
  function Performed(s: Setup, m: Minds, x: Session, actions: seq<Action>): seq<Action>
    decreases |actions|
  {
    if |actions| == 0 then []
    else
      var y := EnvCommit(s, m, x, actions[0]);
      [actions[0]] + (if y.core.world.finished then [] else Performed(s, m, y, actions[1..]))
  }

  lemma {:induction false} CommitAllShows(s: Setup, m: Minds, x: Session, actions: seq<Action>)
    ensures ActionsOf(EnvCommitAll(s, m, x, actions).core) == ActionsOf(x.core) + Performed(s, m, x, actions)
    decreases |actions|
  {
    hide EnvCommit, ActionsOf;
    if |actions| == 0 {
      assert ActionsOf(x.core) + [] == ActionsOf(x.core);
    } else {
      var y := EnvCommit(s, m, x, actions[0]);
      CommitShows(s, m, x, actions[0]);
      if !y.core.world.finished {
        CommitAllShows(s, m, y, actions[1..]);
      }
    }
  }

  /** Actions beyond the end of the episode make no difference. */
  lemma {:induction false} OnlyPerformed(s: Setup, m: Minds, x: Session, actions: seq<Action>)
    ensures EnvCommitAll(s, m, x, Performed(s, m, x, actions)) == EnvCommitAll(s, m, x, actions)
    decreases |actions|
  {
    hide EnvCommit;
    if |actions| > 0 {
      var y := EnvCommit(s, m, x, actions[0]);
      var performed := Performed(s, m, x, actions);
      if !y.core.world.finished {
        OnlyPerformed(s, m, y, actions[1..]);
        assert performed[1..] == Performed(s, m, y, actions[1..]);
      }
    }
  }

  lemma {:induction false} AkinCommitAll(
      s: Setup, m: Minds, m': Minds, x: Session, y: Session, r: ResourceDelta, actions: seq<Action>)
    requires Akin(s, x, y, r)
    ensures Akin(s, EnvCommitAll(s, m, x, actions), EnvCommitAll(s, m', y, actions), r)
    ensures Performed(s, m, x, actions) == Performed(s, m', y, actions)
    decreases |actions|
  {
    hide EnvCommit, Akin;
    if |actions| > 0 {
      AkinCommit(s, m, m', x, y, r, actions[0]);
      var u, v := EnvCommit(s, m, x, actions[0]), EnvCommit(s, m', y, actions[0]);
      AkinWorld(s, u, v, r);
      AkinCommitAll(s, m, m', u, v, r, actions[1..]);
    }
  }

  /** The same performed actions leave akin sessions akin, whatever else was to be committed. */
  lemma AkinPerformed(
      s: Setup, m: Minds, m': Minds, x: Session, y: Session, r: ResourceDelta, actions: seq<Action>, others: seq<Action>)
    requires Akin(s, x, y, r) && Performed(s, m, x, actions) == Performed(s, m', y, others)
    ensures Akin(s, EnvCommitAll(s, m, x, actions), EnvCommitAll(s, m', y, others), r)
  {
    hide EnvCommitAll, Performed, Akin;
    OnlyPerformed(s, m, x, actions);
    OnlyPerformed(s, m', y, others);
    AkinCommitAll(s, m, m', x, y, r, Performed(s, m, x, actions));
  }

  lemma {:induction false} PerformedAmong(s: Setup, m: Minds, x: Session, actions: seq<Action>)
    ensures forall a :: a in Performed(s, m, x, actions) ==> a in actions
    ensures actions != [] <==> Performed(s, m, x, actions) != []
    decreases |actions|
  {
    hide EnvCommit;
    if |actions| > 0 {
      PerformedAmong(s, m, EnvCommit(s, m, x, actions[0]), actions[1..]);
    }
  }

  lemma {:induction false} CommitAllKeepsMemos(s: Setup, m: Minds, x: Session, actions: seq<Action>)
    ensures EnvCommitAll(s, m, x, actions).memos == x.memos
    decreases |actions|
  {
    hide TakeAction, Capture, Emit;
    if |actions| > 0 {
      CommitAllKeepsMemos(s, m, EnvCommit(s, m, x, actions[0]), actions[1..]);
    }
  }

  // ---- one agent ----

  /** The actions of a stream, in its order. */
  function Offered(agent: Agent, emissions: seq<Emission>): seq<Action> {
    if |emissions| == 0 then []
    else (if emissions[0].kind.EmitAction? then [ActionOf(agent, emissions[0])] else []) + Offered(agent, emissions[1..])
  }

  /** What a stream charges; when its actions are committed as they come, up to the end of the episode. */
  function Spent(s: Setup, m: Minds, x: Session, agent: Agent, emissions: seq<Emission>): ResourceDelta
    decreases |emissions|
  {
    if |emissions| == 0 then NoResources
    else
      var em := emissions[0];
      em.delta.Plus(
        if !em.kind.EmitAction? || s.driver.ParallelDriven? then Spent(s, m, x, agent, emissions[1..])
        else
          var y := EnvCommit(s, m, x, ActionOf(agent, em));
          if y.core.world.finished then NoResources else Spent(s, m, y, agent, emissions[1..]))
  }

  lemma {:induction false} OfferedIsHis(agent: Agent, emissions: seq<Emission>)
    ensures forall a :: a in Offered(agent, emissions) ==> a.actor == agent
    ensures Offered(agent, emissions) != [] <==> Acts(emissions)
  {
    if |emissions| > 0 {
      OfferedIsHis(agent, emissions[1..]);
      if Acts(emissions) && !emissions[0].kind.EmitAction? {
        var i :| 0 <= i < |emissions| && emissions[i].kind.EmitAction?;
        assert emissions[1..][i - 1].kind.EmitAction?;
      }
      if Acts(emissions[1..]) {
        var i :| 0 <= i < |emissions[1..]| && emissions[1..][i].kind.EmitAction?;
        assert emissions[i + 1].kind.EmitAction?;
      }
      if emissions[0].kind.EmitAction? {
        assert Acts(emissions);
      }
    }
  }

  lemma {:induction false} AkinSpent(s: Setup, m: Minds, m': Minds, x: Session, y: Session, r: ResourceDelta, agent: Agent, emissions: seq<Emission>)
    requires Akin(s, x, y, r)
    ensures Spent(s, m, x, agent, emissions) == Spent(s, m', y, agent, emissions)
    decreases |emissions|
  {
    hide EnvCommit, Akin, ResourceDelta.Plus;
    if |emissions| > 0 {
      var em := emissions[0];
      AkinSpent(s, m, m', x, y, r, agent, emissions[1..]);
      if em.kind.EmitAction? {
        AkinCommit(s, m, m', x, y, r, ActionOf(agent, em));
        var u, v := EnvCommit(s, m, x, ActionOf(agent, em)), EnvCommit(s, m', y, ActionOf(agent, em));
        AkinWorld(s, u, v, r);
        AkinSpent(s, m, m', u, v, r, agent, emissions[1..]);
      }
    }
  }

  /** In turn-taking mode a stream commits its actions, and spends. */
  lemma {:induction false} StreamIsCommits(
      s: Setup, m: Minds, x: Session, agent: Agent, emissions: seq<Emission>, collected: seq<Action>)
    requires !s.driver.ParallelDriven?
    ensures var (y, more) := EnvStream(s, m, x, agent, emissions, collected);
      && Akin(s, EnvCommitAll(s, m, x, Offered(agent, emissions)), y, Spent(s, m, x, agent, emissions))
      && more == collected
    decreases |emissions|
  {
    hide EnvCommit, Akin, EnvCharge, ResourceDelta.Plus;
    if |emissions| == 0 {
      AkinAside(s, x, x);
    } else {
      var em := emissions[0];
      var y := x.(core := EnvCharge(x.core, em));
      var rest := Offered(agent, emissions[1..]);
      AkinCharge(s, x, em);
      if !em.kind.EmitAction? {
        StreamIsCommits(s, m, y, agent, emissions[1..], collected);
        AkinCommitAll(s, m, m, x, y, em.delta, rest);
        AkinSpent(s, m, m, x, y, em.delta, agent, emissions[1..]);
        AkinOn(s, EnvCommitAll(s, m, x, rest), EnvCommitAll(s, m, y, rest), EnvStream(s, m, y, agent, emissions[1..], collected).0,
               em.delta, Spent(s, m, y, agent, emissions[1..]));
        assert [] + rest == rest;
      } else {
        var a := ActionOf(agent, em);
        var u, v := EnvCommit(s, m, x, a), EnvCommit(s, m, y, a);
        AkinCommit(s, m, m, x, y, em.delta, a);
        AkinWorld(s, u, v, em.delta);
        assert ([a] + rest)[1..] == rest;
        if u.core.world.finished {
          PlusLaws(em.delta, em.delta, em.delta);
        } else {
          StreamIsCommits(s, m, v, agent, emissions[1..], collected);
          AkinCommitAll(s, m, m, u, v, em.delta, rest);
          AkinSpent(s, m, m, u, v, em.delta, agent, emissions[1..]);
          AkinOn(s, EnvCommitAll(s, m, u, rest), EnvCommitAll(s, m, v, rest), EnvStream(s, m, v, agent, emissions[1..], collected).0,
                 em.delta, Spent(s, m, v, agent, emissions[1..]));
        }
      }
    }
  }

  /** In parallel mode a stream only adds its actions to those collected, and spends. */
  lemma {:induction false} StreamIsCollected(
      s: Setup, m: Minds, x: Session, agent: Agent, emissions: seq<Emission>, collected: seq<Action>)
    requires s.driver.ParallelDriven?
    ensures var (y, more) := EnvStream(s, m, x, agent, emissions, collected);
      && Akin(s, x, y, Spent(s, m, x, agent, emissions)) && more == collected + Offered(agent, emissions)
    decreases |emissions|
  {
    hide Akin, EnvCharge, EnvCommit, ResourceDelta.Plus;
    if |emissions| == 0 {
      AkinAside(s, x, x);
      assert collected + [] == collected;
    } else {
      var em := emissions[0];
      var y := x.(core := EnvCharge(x.core, em));
      AkinCharge(s, x, em);
      AkinSpent(s, m, m, x, y, em.delta, agent, emissions[1..]);
      var next := if em.kind.EmitAction? then collected + [ActionOf(agent, em)] else collected;
      StreamIsCollected(s, m, y, agent, emissions[1..], next);
      AkinOn(s, x, y, EnvStream(s, m, y, agent, emissions[1..], next).0, em.delta, Spent(s, m, y, agent, emissions[1..]));
      assert next + Offered(agent, emissions[1..]) == collected + Offered(agent, emissions);
    }
  }

  lemma {:induction false} StreamKeepsMemos(s: Setup, m: Minds, x: Session, agent: Agent, emissions: seq<Emission>, collected: seq<Action>)
    ensures EnvStream(s, m, x, agent, emissions, collected).0.memos == x.memos
    decreases |emissions|
  {
    hide TakeAction, Capture, Emit, EnvCharge;
    if |emissions| > 0 {
      var em := emissions[0];
      var y := x.(core := EnvCharge(x.core, em));
      StreamKeepsMemos(s, m, y, agent, emissions[1..], collected);
      StreamKeepsMemos(s, m, y, agent, emissions[1..], collected + [ActionOf(agent, em)]);
      StreamKeepsMemos(s, m, EnvCommit(s, m, y, ActionOf(agent, em)), agent, emissions[1..], collected);
    }
  }
}
