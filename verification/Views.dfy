/** Views are projections of one log: what a view cannot see does not influence it, and
    projecting cannot reveal more than the log allowed (src/testbed_contracts/events.py). */
module Views {
  import opened Wrappers
  import opened Contracts
  import opened Sorting

  lemma ViewSnoc(events: seq<Event>, e: Event, view: string)
    ensures EventView(events + [e], view)
         == EventView(events, view) + (match e.Project(view) case None => [] case Some(p) => [p])
  {
    assert (events + [e])[..|events|] == events;
    assert EventView(events, view) + [] == EventView(events, view);
  }

  /** The same to the view: equal, or both out of sight, or different only in who else may see them. */
  predicate Indistinguishable(a: Event, b: Event, view: string) {
    a.Project(view) == b.Project(view)
  }

  /** Noninterference: logs that agree, position by position, on what the view may see give the same view. */
  lemma {:induction false} Noninterference(a: seq<Event>, b: seq<Event>, view: string)
    requires |a| == |b|
    requires forall i :: 0 <= i < |a| ==>
      (a[i] == b[i] || (!a[i].VisibleTo(view) && !b[i].VisibleTo(view)) || Indistinguishable(a[i], b[i], view))
    ensures EventView(a, view) == EventView(b, view)
  {
    if |a| > 0 {
      var n := |a| - 1;
      assert forall i :: 0 <= i < n ==> a[..n][i] == a[i] && b[..n][i] == b[i];
      Noninterference(a[..n], b[..n], view);
      assert Indistinguishable(a[n], b[n], view);
    }
  }

  /** A view contains exactly the projections of the visible events, in the order of the log. */
  lemma {:induction false} ViewIsFilter(events: seq<Event>, view: string)
    ensures |EventView(events, view)| == |Filter(events, Seen(view))|
    ensures forall i :: 0 <= i < |EventView(events, view)| ==>
      Filter(events, Seen(view))[i].Project(view) == Some(EventView(events, view)[i])
  {
    if |events| > 0 {
      ViewIsFilter(events[..|events| - 1], view);
    }
  }

  function Seen(view: string): Event -> bool {
    (e: Event) => e.VisibleTo(view)
  }

  /** Nobody learns from a view who else may see an event. */
  lemma {:induction false} OnlyOwnAuthorisation(events: seq<Event>, view: string, e: Event)
    requires e in EventView(events, view) && view != OMNISCIENT_VIEW
    ensures e.visibility.Public? || (e.authorized == [view] && !e.visibility.OmniscientOnly? && view != PUBLIC_VIEW)
  {
    var n := |events| - 1;
    if e in EventView(events[..n], view) {
      OnlyOwnAuthorisation(events[..n], view, e);
    } else {
      assert Some(e) == events[n].Project(view);
    }
  }

  lemma ProjectTwice(e: Event, view: string)
    ensures e.Project(view).Some? ==> e.Project(view).value.Project(view) == e.Project(view)
  {
  }

  /** Projecting a view again changes nothing. */
  lemma {:induction false} ViewIsIdempotent(events: seq<Event>, view: string)
    ensures EventView(EventView(events, view), view) == EventView(events, view)
  {
    if |events| > 0 {
      var front, last := events[..|events| - 1], events[|events| - 1];
      ViewIsIdempotent(front, view);
      ProjectTwice(last, view);
      if last.Project(view).Some? {
        ViewSnoc(EventView(front, view), last.Project(view).value, view);
      }
    }
  }

  lemma ProjectAcross(e: Event, u: string, v: string)
    requires u != v && u != OMNISCIENT_VIEW && v != OMNISCIENT_VIEW
    ensures (match e.Project(u) case None => None case Some(p) => p.Project(v)) == e.Project(PUBLIC_VIEW)
  {
  }

  /** Through one agent's view and then another's, exactly the public events are left. */
  lemma {:induction false} ViewsCompose(events: seq<Event>, u: string, v: string)
    requires u != v && u != OMNISCIENT_VIEW && v != OMNISCIENT_VIEW
    ensures EventView(EventView(events, u), v) == EventView(events, PUBLIC_VIEW) == Filter(events, IsPublic())
  {
    PublicView(events);
    if |events| > 0 {
      var front, last := events[..|events| - 1], events[|events| - 1];
      ViewsCompose(front, u, v);
      ProjectAcross(last, u, v);
      if last.Project(u).Some? {
        ViewSnoc(EventView(front, u), last.Project(u).value, v);
      }
    }
  }

  function IsPublic(): Event -> bool {
    (e: Event) => e.visibility.Public?
  }

  lemma {:induction false} PublicView(events: seq<Event>)
    ensures EventView(events, PUBLIC_VIEW) == Filter(events, IsPublic())
  {
    if |events| > 0 {
      PublicView(events[..|events| - 1]);
    }
  }

  lemma {:induction false} OmniscientView(events: seq<Event>)
    ensures EventView(events, OMNISCIENT_VIEW) == events
  {
    if |events| > 0 {
      OmniscientView(events[..|events| - 1]);
      assert events == events[..|events| - 1] + [events[|events| - 1]];
    }
  }

  /** A later log continues the view of an earlier one. */
  lemma {:induction false} ViewGrows(events: seq<Event>, more: seq<Event>, view: string)
    ensures EventView(events, view) <= EventView(events + more, view)
  {
    if |more| == 0 {
      assert events + more == events;
    } else {
      var front, last := more[..|more| - 1], more[|more| - 1];
      ViewGrows(events, front, view);
      assert events + more == (events + front) + [last];
      ViewSnoc(events + front, last, view);
    }
  }

  // ---- unauthorized_payloads (src/testbed_kernel/playback.py) ----

  function Allowed(stored: seq<Event>, view: string): set<Body> {
    set i | 0 <= i < |stored| && stored[i].VisibleTo(view) :: stored[i].body
  }

  function NotAmong(allowed: set<Body>): Event -> bool {
    (e: Event) => e.body !in allowed
  }

  /** The events of a view whose payload no visible event carries. The payload hash is injective,
      so payloads stand for their hashes. */
  function UnauthorizedPayloads(stored: seq<Event>, view: string): seq<Event> {
    Filter(EventView(stored, view), NotAmong(Allowed(stored, view)))
  }

  /** A view never holds a payload it was not authorised to see. */
  lemma NothingLeaks(stored: seq<Event>, view: string)
    ensures UnauthorizedPayloads(stored, view) == []
  {
    var projected, allowed := EventView(stored, view), Allowed(stored, view);
    forall e | e in projected ensures e.body in allowed {
      var i :| 0 <= i < |projected| && projected[i] == e;
      PayloadIsAllowed(stored, view, i);
    }
    FilterNone(projected, NotAmong(allowed));
  }

  lemma {:induction false} PayloadIsAllowed(stored: seq<Event>, view: string, i: nat)
    requires i < |EventView(stored, view)|
    ensures exists k :: 0 <= k < |stored| && stored[k].VisibleTo(view) && stored[k].body == EventView(stored, view)[i].body
  {
    var n := |stored| - 1;
    if i < |EventView(stored[..n], view)| {
      PayloadIsAllowed(stored[..n], view, i);
      var k :| 0 <= k < n && stored[..n][k].VisibleTo(view) && stored[..n][k].body == EventView(stored[..n], view)[i].body;
      assert stored[k].VisibleTo(view) && stored[k].body == EventView(stored, view)[i].body;
    } else {
      assert stored[n].VisibleTo(view) && stored[n].body == EventView(stored, view)[i].body;
    }
  }

  // ---- total_resources ----

  /** `total_resources`: the loop over the events of a view. */
  method SumResources(events: seq<Event>) returns (total: ResourceDelta)
    ensures total == TotalResources(events)
  {
    total := NoResources;
    var i := 0;
    while i < |events|
      invariant 0 <= i <= |events| && total == TotalResources(events[..i])
    {
      total := total.Plus(events[i].delta);
      assert events[..i + 1][..i] == events[..i];
      i := i + 1;
    }
    assert events[..i] == events;
  }
}
