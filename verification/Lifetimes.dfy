/** How long events last: every event in force is active for exactly the days its countdown allows. */
module Lifetimes {
  import opened Market
  import opened Events
  import opened Demand
  import opened Trading
  import opened DayCycle
  import opened DemandCache
  import opened Effects

  /** The events that outlast k more evenings, in their order, each k days nearer its end. */
  function Aged(events: seq<Event>, k: nat): seq<Event> {
    if events == [] then []
    else
      var (rest, last) := (Aged(events[..|events| - 1], k), events[|events| - 1]);
      if last.daysRemaining > k then rest + [last.(daysRemaining := last.daysRemaining - k)] else rest
  }

  lemma {:induction false} AgedJoin(xs: seq<Event>, ys: seq<Event>, k: nat)
    ensures Aged(xs + ys, k) == Aged(xs, k) + Aged(ys, k)
    decreases |ys|
  {
    if ys == [] {
      assert xs + ys == xs;
    } else {
      assert (xs + ys)[..|xs + ys| - 1] == xs + ys[..|ys| - 1];
      AgedJoin(xs, ys[..|ys| - 1], k);
    }
  }

  /** Ageing by k evenings and then one more is ageing by k + 1. */
  lemma {:induction false} AgedAgain(events: seq<Event>, k: nat)
    ensures Aged(Aged(events, k), 1) == Aged(events, k + 1)
  {
    if events != [] {
      var (front, last) := (events[..|events| - 1], events[|events| - 1]);
      AgedAgain(front, k);
      if last.daysRemaining > k {
        var older := last.(daysRemaining := last.daysRemaining - k);
        AgedJoin(Aged(front, k), [older], 1);
        assert [older][..0] == [];
      }
    }
  }

  lemma {:induction false} ExpiryAges(st: State, queue: seq<Event>)
    ensures ExpiryRun(st, queue).events == st.events + Aged(queue, 1)
    decreases |queue|
  {
    if queue != [] {
      hide ReviewRecovery;
      ExpiryAges(ExpiryStep(st, queue[0]), queue[1..]);
      assert queue == [queue[0]] + queue[1..];
      AgedJoin([queue[0]], queue[1..], 1);
      assert [queue[0]][..0] == [];
    }
  }

  /** A day's evening ages exactly the events in force when its agent decided. */
  lemma EveningAges(m: Setup, st: State, plan: Plan)
    requires m.catalog != []
    ensures RunDay(m, st, plan).st.events == Aged(Prepared(m, st).st.events, 1)
  {
    hide Prepared, PerformAll, Actions, ExpiryRun, MultiplierFor;
    var d := Prepared(m, st);
    TradingKeepsDemand(m, Opened(m, d.st, |d.orders|, d.adj), Actions(plan, d.orders));
    var closed := Applied(m, d.st, plan, d.orders, d.adj).st;
    ExpiryAges(closed.(events := []), closed.events);
  }

  /** The events in force when the agent decides are last evening's, and perhaps a new one after them that is to last
      three to fourteen days. */
  predicate Joined(before: seq<Event>, now: seq<Event>) {
    now == before || (&& |now| == |before| + 1 && now[..|before|] == before
                      && 3 <= now[|before|].daysRemaining <= 14)
  }

  lemma MorningAdds(m: Setup, st: State)
    requires m.catalog != []
    ensures Joined(st.events, Prepared(m, st).st.events)
  {
    hide MorningOf, EvolvedFrom, OrdersRun, DrawnEvent, MultiplierFor;
    MorningFrame(m, st);
    var morning := MorningOf(m, st).st;
    EvolveFrame(m, morning, 0);
    var evolved := EvolvedFrom(m, morning, 0);
    GeneratedFrame(m, evolved);
    DrawnEventSound(m, Generated(m, evolved).st.cursor + 1);
  }

  predicate Prefix(xs: seq<Event>, ys: seq<Event>) { |xs| <= |ys| && ys[..|xs|] == xs }

  /** The events in force when the agent decides on the given day. */
  function InForce(m: Setup, st: State, plans: seq<Plan>, day: nat): seq<Event>
    requires m.catalog != [] && day < |plans|
  {
    Prepared(m, StateAfter(m, st, plans, day)).st.events
  }

  /** No event in force has run out. */
  predicate Running(events: seq<Event>) { forall e <- events :: e.daysRemaining > 0 }

  /** One more day leaves of the first events what outlasts one more evening, in front of all later ones. */
  lemma PrefixAges(first: seq<Event>, k: nat, before: seq<Event>, now: seq<Event>)
    requires Prefix(Aged(first, k), before) && Joined(Aged(before, 1), now)
    ensures Prefix(Aged(first, k + 1), now)
  {
    hide Aged;
    var young := Aged(first, k);
    assert before == young + before[|young|..];
    AgedJoin(young, before[|young|..], 1);
    AgedAgain(first, k);
  }

  lemma {:induction false} EventsAge(m: Setup, st: State, plans: seq<Plan>, day: nat, k: nat)
    requires m.catalog != [] && day + k < |plans| && Running(InForce(m, st, plans, day))
    ensures Prefix(Aged(InForce(m, st, plans, day), k), InForce(m, st, plans, day + k))
    decreases k
  {
    hide StateAfter, Prepared, RunDay, Aged, Prefix, Joined;
    var first := InForce(m, st, plans, day);
    if k == 0 {
      AgedByNothing(first);
      PrefixOfItself(first);
    } else {
      EventsAge(m, st, plans, day, k - 1);
      NextDay(m, st, plans, day + k - 1);
      EveningAges(m, StateAfter(m, st, plans, day + k - 1), plans[day + k - 1]);
      MorningAdds(m, StateAfter(m, st, plans, day + k));
      PrefixAges(first, k - 1, InForce(m, st, plans, day + k - 1), InForce(m, st, plans, day + k));
    }
  }

  lemma PrefixOfItself(events: seq<Event>)
    ensures Prefix(events, events)
  {
  }

  lemma {:induction false} AgedByNothing(events: seq<Event>)
    requires Running(events)
    ensures Aged(events, 0) == events
  {
    if events != [] {
      var front := events[..|events| - 1];
      assert events == front + [events[|events| - 1]];
      assert forall e <- front :: e in events;
      AgedByNothing(front);
    }
  }

  lemma AgedAt(events: seq<Event>, i: nat, k: nat)
    requires i < |events|
    ensures var e := events[i];
            Aged(events, k) == Aged(events[..i], k)
                               + (if e.daysRemaining > k then [e.(daysRemaining := e.daysRemaining - k)] else [])
                               + Aged(events[i + 1..], k)
  {
    assert events == events[..i + 1] + events[i + 1..];
    AgedJoin(events[..i + 1], events[i + 1..], k);
    assert events[..i + 1][..i] == events[..i];
  }

  lemma {:induction false} AgedRunning(events: seq<Event>, k: nat)
    ensures Running(Aged(events, k))
  {
    if events != [] { AgedRunning(events[..|events| - 1], k); }
  }

  lemma {:induction false} EveningsRunning(m: Setup, st: State, plans: seq<Plan>, day: nat)
    requires m.catalog != [] && day <= |plans| && Running(st.events)
    ensures Running(StateAfter(m, st, plans, day).events)
    decreases day
  {
    hide RunDay, Prepared, Aged;
    if day > 0 {
      NextDay(m, st, plans, day - 1);
      EveningAges(m, StateAfter(m, st, plans, day - 1), plans[day - 1]);
      AgedRunning(InForce(m, st, plans, day - 1), 1);
    }
  }

  lemma InForceRunning(m: Setup, st: State, plans: seq<Plan>, day: nat)
    requires m.catalog != [] && day < |plans| && Running(st.events)
    ensures Running(InForce(m, st, plans, day))
  {
    hide StateAfter, Prepared;
    EveningsRunning(m, st, plans, day);
    MorningAdds(m, StateAfter(m, st, plans, day));
    var (before, now) := (StateAfter(m, st, plans, day).events, InForce(m, st, plans, day));
    assert now != before ==> now == before + [now[|before|]];
  }

  /** Main result: take any event in force on some day of a run. On every later day within its countdown it is still in
      force, in its place behind the older ones that last as long, with as many days fewer to go; from the day its
      countdown allows no longer, what is left of that day's events is what would be left without it. All other
      events then in force came later. */
  lemma EventsLast(m: Setup, st: State, plans: seq<Plan>, day: nat, i: nat, k: nat)
    requires m.catalog != [] && Running(st.events) && day + k < |plans|
    requires i < |InForce(m, st, plans, day)|
    ensures var (first, now) := (InForce(m, st, plans, day), InForce(m, st, plans, day + k));
            var (e, place) := (first[i], |Aged(first[..i], k)|);
            && Prefix(Aged(first, k), now)
            && (k < e.daysRemaining ==>
                  place < |now| && now[place] == e.(daysRemaining := e.daysRemaining - k))
            && (k >= e.daysRemaining ==> Aged(first, k) == Aged(first[..i] + first[i + 1..], k))
  {
    hide InForce, Aged;
    var first := InForce(m, st, plans, day);
    InForceRunning(m, st, plans, day);
    EventsAge(m, st, plans, day, k);
    AgedAt(first, i, k);
    AgedJoin(first[..i], first[i + 1..], k);
  }
}
