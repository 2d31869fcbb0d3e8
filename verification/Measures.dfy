/** What a run is measured by (src/testbed_kernel/measures.py). */
module Measures {
  import opened Wrappers
  import opened Contracts
  import opened Invariants

  /** `next(m for m in messages if ...)`: the first message of the sender that is not later than the delivery. */
  function Source(events: seq<Event>, sender: Agent, time: int): Option<Event>
    decreases |events|
  {
    if |events| == 0 then None
    else if events[0].kind.AgentMessage? && events[0].actor == sender && events[0].time <= time then Some(events[0])
    else Source(events[1..], sender, time)
  }

  predicate FromAgent(e: Event) {
    e.kind.MessageDelivered? && e.body.Delivered? && e.body.sender != "" && e.body.sender != WORLD_ACTOR
  }

  /** The latency counted for one event of the log, if any. */
  function LatencyOf(events: seq<Event>, e: Event): seq<int> {
    if !FromAgent(e) then []
    else
      match Source(events, e.body.sender, e.time)
      case None => []
      case Some(source) => [e.time - source.time]
  }

  function Latencies(events: seq<Event>, upTo: nat): seq<int>
    requires upTo <= |events|
  {
    if upTo == 0 then [] else Latencies(events, upTo - 1) + LatencyOf(events, events[upTo - 1])
  }

  /** The loop over the deliveries. */
  method HandoffLatencies(events: seq<Event>) returns (latencies: seq<int>)
    ensures latencies == Latencies(events, |events|)
    ensures forall l :: l in latencies ==> l >= 0
  {
    latencies := [];
    for i := 0 to |events|
      invariant latencies == Latencies(events, i)
      invariant forall l :: l in latencies ==> l >= 0
    {
      var e := events[i];
      if FromAgent(e) {
        SourceIsNotLater(events, e.body.sender, e.time);
        var source := Source(events, e.body.sender, e.time);
        if source.Some? {
          latencies := latencies + [e.time - source.value.time];
        }
      }
    }
  }

  lemma {:induction false} SourceIsNotLater(events: seq<Event>, sender: Agent, time: int)
    ensures Source(events, sender, time).Some? ==>
      Source(events, sender, time).value.time <= time && Source(events, sender, time).value.actor == sender
    decreases |events|
  {
    if |events| > 0 {
      SourceIsNotLater(events[1..], sender, time);
    }
  }

  predicate SentBy(e: Event, sender: Agent) {
    e.kind.AgentMessage? && e.actor == sender
  }

  /** In a log in order of time the latency of a delivery is counted from the first message its
      sender ever sent, not from the one that was delivered (`j`). */
  lemma {:induction false} CountedFromTheFirstMessage(events: seq<Event>, sender: Agent, time: int, i: nat, j: nat)
    requires Timely(events) && i <= j < |events|
    requires SentBy(events[j], sender) && events[j].time <= time
    requires SentBy(events[i], sender) && forall k :: 0 <= k < i ==> !SentBy(events[k], sender)
    ensures Source(events, sender, time) == Some(events[i])
    decreases |events|
  {
    assert events[i].time <= events[j].time;
    if i > 0 {
      assert !SentBy(events[0], sender);
      var rest := events[1..];
      assert forall k :: 0 <= k < |rest| ==> rest[k] == events[k + 1];
      CountedFromTheFirstMessage(rest, sender, time, i - 1, j - 1);
    }
  }
}
