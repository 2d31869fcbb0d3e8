/** The World object: the single owner of state, time, delivery and faults
    (src/testbed_kernel/world.py). Each method does what its rule says. */
module Worlds {
  import opened Wrappers
  import opened Contracts
  import opened KernelState
  import opened Sorting
  import opened Scheduler
  import opened Randomness
  import opened Journals
  import R = WorldRules

  class World {
    const s: Setup
    const journal: EventJournal
    const rng: DeterministicRng
    const queue: DeliveryQueue
    var time: int
    var finished: bool
    var finishReason: string
    var state: Facts
    var payoffs: map<Agent, real>
    var dropped: set<Agent>
    var publicFacts: Facts
    var privateFacts: map<Agent, Facts>
    var counters: Counters
    var occurrences: map<nat, nat>
    var resources: ResourceDelta
    var ledger: Ledger

    function Values(): WorldState
      reads this, queue
    {
      WorldState(time, finished, finishReason, state, queue.items, payoffs, dropped, publicFacts,
                              privateFacts, counters, occurrences, resources)
    }

    ghost function Core(): Core
      reads this, journal, journal.store, rng, queue
    {
      KernelState.Core.Core(journal.Journal(), rng.Rng(), Values(), ledger)
    }

    /** The collaborators belong to this run and the journal stands at the end of a dense log. */
    ghost predicate Ready()
      reads this, journal, journal.store
    {
      Synced(journal.Journal()) && queue.digest == s.digest && rng.draw == s.draw
    }

    constructor (s: Setup, journal: EventJournal, rng: DeterministicRng)
      requires Synced(journal.Journal()) && rng.draw == s.draw
      ensures Ready() && this.s == s && this.journal == journal && this.rng == rng && fresh(queue)
      ensures Values() == R.NewWorld(s) && ledger == R.NewLedger(s)
    {
      this.s, this.journal, this.rng := s, journal, rng;
      queue := new DeliveryQueue(s.digest);
      time, finished, finishReason, state := 0, false, "", s.initialState;
      payoffs := map a | a in s.AgentIds() :: 0.0;
      dropped := {};
      publicFacts := s.publicFacts;
      privateFacts := map a | a in s.AgentIds() :: (if a in s.privateFacts then s.privateFacts[a] else map[]);
      counters := Counters(0, 0, 0, 0, 0);
      occurrences := map[];
      resources := NoResources;
      ledger := R.NewLedger(s);
    }

    method Emit(d: Draft) returns (e: Event)
      requires Ready()
      modifies journal, journal.store
      ensures Ready() && Core() == R.Emit(old(Core()), d)
      ensures e.id == EventId(old(journal.sequence))
    {
      var r := journal.Commit(d);
      e := r.event;
    }

    method AdvanceTo(time: int)
      requires Ready()
      modifies this, journal, journal.store
      ensures Ready() && Core() == R.AdvanceTo(old(Core()), time)
    {
      if time <= this.time {
        return;
      }
      this.time := time;
      var _ := Emit(PublicDraft(ClockAdvanced, WORLD_ACTOR, time, Clock(time)));
    }

    method PolicyEvent(rule: string, subject: string, amount: int)
      requires Ready()
      modifies journal, journal.store
      ensures Ready() && Core() == R.PolicyEvent(old(Core()), rule, subject, amount)
    {
      var _ := Emit(PublicDraft(PolicyDecided, WORLD_ACTOR, time, Policy(rule, false, subject, amount)));
    }

    method Post(item: Item)
      requires Ready()
      modifies this, queue
      ensures Ready() && Core() == R.Post(old(Core()), item)
    {
      queue.Push(item);
      ledger := ledger.(posted := ledger.posted + [Posted(item, time)]);
    }

    method PopDue() returns (due: seq<Item>)
      requires Ready()
      modifies this, queue
      ensures Ready() && (Core(), due) == R.PopDue(s, old(Core()))
    {
      due := queue.PopDue(time);
      ledger := ledger.(popped := ledger.popped + due);
    }

    method DropOut(agent: Agent)
      requires Ready()
      modifies this, queue, journal, journal.store
      ensures Ready() && Core() == R.DropOut(old(Core()), agent)
    {
      dropped := dropped + {agent};
      ledger := ledger.(removed := ledger.removed + Filter(queue.items, For(agent)));
      var removed := queue.DropFor(agent);
      PolicyEvent("agent_dropout", agent, removed);
    }

    method FaultFires(index: nat) returns (fires: bool)
      requires Ready() && index < |s.faults|
      modifies this, rng
      ensures Ready() && (Core(), fires) == R.FaultFires(s, old(Core()), index)
    {
      var fault := s.faults[index];
      if fault.kind.AgentDropout? {
        return false;
      }
      var occurrence := (if index in occurrences then occurrences[index] else 0) + 1;
      occurrences := occurrences[index := occurrence];
      if fault.onOccurrences != [] {
        return occurrence in fault.onOccurrences;
      }
      var value := rng.Random(FaultStream(index));
      fires := value < fault.probability;
    }

    method ApplyFault(index: nat, item: Item) returns (r: Option<Item>)
      requires Ready() && index < |s.faults|
      modifies this, rng, queue, journal, journal.store
      ensures Ready() && (Core(), r) == R.ApplyFault(s, old(Core()), index, item)
    {
      hide R.AppliesTo, R.FaultFires, R.Emit, R.Post, R.Transform;
      var fault := s.faults[index];
      if !R.AppliesTo(fault, item.delivery) {
        return Some(item);
      }
      var fires := FaultFires(index);
      if !fires {
        return Some(item);
      }
      Fired(index);
      var _ := Emit(R.FaultDraft(fault.kind, time, item.delivery));
      match fault.kind {
        case DropMessage => r := None;
        case DuplicateMessage =>
          Post(item.(duplicate := 1));
          CountDuplicate();
          r := Some(item);
        case _ => r := Some(R.Transform(fault, item));
      }
    }

    method Fired(index: nat)
      requires Ready()
      modifies this`ledger
      ensures Ready() && Core() == old(Core()).(ledger := old(ledger).(fired := R.Bump(old(ledger).fired, index)))
    {
      ledger := ledger.(fired := R.Bump(ledger.fired, index));
    }

    method CountDuplicate()
      requires Ready()
      modifies this`counters
      ensures Ready()
      ensures Core() == old(Core()).(world := old(Values()).(counters := old(counters).(duplicates := old(counters).duplicates + 1)))
    {
      counters := counters.(duplicates := counters.duplicates + 1);
    }

    /** The loop over `manifest.faults`; None when a fault dropped the item. */
    method ApplyFaults(scheduled: Item) returns (r: Option<Item>)
      requires Ready()
      modifies this, rng, queue, journal, journal.store
      ensures Ready() && (Core(), r) == R.ApplyFaults(s, old(Core()), scheduled, |s.faults|)
    {
      ghost var start := Core();
      r := Some(scheduled);
      var index := 0;
      while index < |s.faults|
        invariant 0 <= index <= |s.faults|
        invariant Ready() && r.Some?
        invariant (Core(), r) == R.ApplyFaults(s, start, scheduled, index)
      {
        r := ApplyFault(index, r.value);
        index := index + 1;
        if r.None? {
          DropEndsFaults(s, start, scheduled, index);
          return;
        }
      }
    }

    method Enqueue(d: Delivery, orderHint: int)
      requires Ready()
      modifies this, rng, queue, journal, journal.store
      ensures Ready() && Core() == R.Enqueue(s, old(Core()), d, orderHint)
    {
      if d.recipient !in s.AgentIds() {
        PolicyEvent("unknown_recipient", d.recipient, 0);
        return;
      }
      if d.recipient in dropped {
        PolicyEvent("recipient_dropped_out", d.recipient, 0);
        return;
      }
      var size := R.Utf8Size(d.content);
      if size > s.maxMessageBytes {
        PolicyEvent("max_message_bytes", "bytes", size);
        return;
      }
      var r := ApplyFaults(Item(time + s.latency + d.extraDelay, orderHint, d, 0));
      if r.Some? {
        Accept(r.value, size);
      }
    }

    method Accept(item: Item, size: nat)
      requires Ready()
      modifies this, queue
      ensures Ready() && Core() == R.Accept(old(Core()), item, size)
    {
      Post(item);
      counters := counters.(messages := counters.messages + 1);
      resources := resources.Plus(NoResources.(messageBytes := size));
    }

    method EnqueueAll(deliveries: seq<Delivery>, orderHint: int)
      requires Ready()
      modifies this, rng, queue, journal, journal.store
      ensures Ready() && Core() == R.EnqueueAll(s, old(Core()), deliveries, orderHint)
    {
      ghost var start := Core();
      var i := 0;
      while i < |deliveries|
        invariant 0 <= i <= |deliveries|
        invariant Ready()
        invariant Core() == R.EnqueueAll(s, start, deliveries[..i], orderHint)
      {
        Enqueue(deliveries[i], orderHint);
        assert deliveries[..i + 1][..i] == deliveries[..i];
        i := i + 1;
      }
      assert deliveries[..i] == deliveries;
    }

    method View() returns (v: View)
      ensures v == R.ViewOf(s, Values())
    {
      v := Contracts.View.View(
        time, state, s.AgentIds(), R.ActiveAgents(s, dropped), s.Roles(), publicFacts, privateFacts, payoffs);
    }

    method Route(p: Proposal) returns (decision: Decision)
      requires Ready()
      modifies journal, journal.store
      ensures Ready() && (Core(), decision) == R.Route(s, old(Core()), p)
    {
      var view := View();
      decision := s.route(p, view);
      var recipients := Filter(decision.recipients, R.Reachable(s, dropped));
      if !s.broadcastAllowed && |recipients| > 1 {
        PolicyEvent("broadcast_not_allowed", p.actor, 0);
        recipients := recipients[..1];
      }
      decision := decision.(recipients := recipients);
    }

    method ApplyChange(action: Action, change: Change)
      requires Ready()
      modifies this, rng, queue, journal, journal.store
      ensures Ready() && Core() == R.ApplyChange(s, old(Core()), action, change)
    {
      if change.rejected != "" {
        PolicyEvent("action_rejected", change.rejected, 0);
        return;
      }
      state := state + change.updates;
      privateFacts := R.GrantFacts(privateFacts, change.factsTo);
      ghost var c1 := Core();
      EnqueueAll(change.messages, 0);
      ghost var c2 := R.EnqueueAll(s, c1, change.messages, 0);
      if change.finished {
        Finish(if change.note != "" then change.note else "action:" + action.kind);
      }
      var _ := Emit(R.ChangedDraft(action, change, time));
    }

    method Finish(reason: string)
      requires Ready()
      modifies this`finished, this`finishReason
      ensures Ready() && Core() == old(Core()).(world := old(Values()).(finished := true, finishReason := reason))
    {
      finished, finishReason := true, reason;
    }

    method AssignPayoffs(perAgent: map<Agent, real>)
      requires Ready()
      modifies this, journal, journal.store
      ensures Ready() && Core() == R.AssignPayoffs(old(Core()), perAgent)
    {
      payoffs := R.AddPayoffs(payoffs, perAgent);
      var _ := Emit(Draft(PayoffAssigned, WORLD_ACTOR, time, [], None, OmniscientOnly, [], Paid(payoffs), NoResources));
    }

    method Snapshot() returns (w: WorldState)
      requires Ready()
      ensures w == R.SnapshotOf(s, Values())
    {
      w := WorldState(time, finished, finishReason, state, Canon(s.digest, queue.items), payoffs, dropped,
                                   publicFacts, privateFacts, counters, occurrences, resources);
    }

    method Restore(w: WorldState, ledger: Ledger)
      requires Ready()
      modifies this, queue
      ensures Ready() && Core() == old(Core()).(world := w, ledger := ledger)
    {
      RestoreProgress(w);
      RestoreBooks(w);
      queue.Load(w.queue);
      this.ledger := ledger;
    }

    method RestoreProgress(w: WorldState)
      modifies this`time, this`finished, this`finishReason, this`state, this`payoffs, this`dropped
      ensures time == w.time && finished == w.finished && finishReason == w.finishReason && state == w.state
      ensures payoffs == w.payoffs && dropped == w.dropped
    {
      time, finished, finishReason, state := w.time, w.finished, w.finishReason, w.state;
      payoffs, dropped := w.payoffs, w.dropped;
    }

    method RestoreBooks(w: WorldState)
      modifies this`publicFacts, this`privateFacts, this`counters, this`occurrences, this`resources
      ensures publicFacts == w.publicFacts && privateFacts == w.privateFacts
      ensures counters == w.counters && occurrences == w.occurrences && resources == w.resources
    {
      publicFacts, privateFacts := w.publicFacts, w.privateFacts;
      counters, occurrences, resources := w.counters, w.occurrences, w.resources;
    }
  }

  /** Once a fault has dropped the item, the faults after it are not reached. */
  lemma {:induction false} DropEndsFaults(s: Setup, c: Core, item: Item, count: nat)
    requires count <= |s.faults| && R.ApplyFaults(s, c, item, count).1.None?
    ensures R.ApplyFaults(s, c, item, |s.faults|) == R.ApplyFaults(s, c, item, count)
    decreases |s.faults| - count
  {
    if count < |s.faults| {
      DropEndsFaults(s, c, item, count + 1);
    }
  }
}
