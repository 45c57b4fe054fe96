/** Whether an endpoint that has received everything has delivered everything, in every run. */
module Completeness {
  import opened VectorClocks
  import opened DeliveryChains
  import opened HoldQueues
  import opened Endpoints
  import opened Networks
  import opened NetworkMoments
  import opened CausalOrder
  import Quiescence

  ghost predicate ReceivedAll(n: Net, p: Actor)
    requires p in n.eps
  {
    forall m | m in n.sent && m.source != p :: m in n.eps[p].arrived
  }

  ghost predicate DeliveredAll(n: Net, p: Actor)
    requires p in n.eps
  {
    forall m | m in n.sent && m.source != p :: m in Log(n.eps[p].history)
  }

  ghost predicate Rested(n: Net, p: Actor)
    requires p in n.eps
  {
    Quiescent(n.eps[p].clock, n.eps[p].held)
  }

  ghost predicate KnowsAll(n: Net, p: Actor)
    requires p in n.eps
  {
    forall q | q in n.eps :: Lookup(n.eps[p].clock, q) == Lookup(n.eps[q].clock, q)
  }

  /** A health message carried `p`'s clock past the slot of the causal message `m` before `m` came. */
  ghost predicate Overtaken(n: Net, p: Actor, m: Message)
    requires p in n.eps
  {
    && !m.Health()
    && exists j: nat :: Jumped(n, p, j, m)
  }

  ghost predicate Jumped(n: Net, p: Actor, j: nat, m: Message)
    requires p in n.eps
  {
    && j < |n.eps[p].history|
    && n.eps[p].history[j].Delivered? && n.eps[p].history[j].msg.Health()
    && n.eps[p].history[j].msg.source == m.source
    && Lookup(ClockAt(n, p, j), m.source) < m.Counter() < n.eps[p].history[j].msg.Counter()
  }

  // ------------------------------------------------------------------
  // Nothing ready means that everything is known
  // ------------------------------------------------------------------

  lemma LoggedIsStale(n: Net, p: Actor, m: Message)
    requires Placed(n) && p in n.eps && m in Log(n.eps[p].history)
    ensures m.Counter() <= Lookup(n.eps[p].clock, m.source)
  {
    hide Sound, ClockAt;
    var i := InLogIsEvent(n.eps[p].history, m);
    CounterCounted(n, p, i, |n.eps[p].history|);
    ClockAtEnd(n, p);
  }

  lemma OwnIsStale(n: Net, p: Actor, m: Message)
    requires Bounded(n) && p in n.eps && m in n.sent
    ensures Lookup(m.vector, p) <= Lookup(n.eps[p].clock, p)
  {
    hide Below, Totals;
    BelowAt(m.vector, Totals(n), p);
    OwnTotal(n, p);
  }

  lemma AllReceivedIsClosed(n: Net, p: Actor)
    requires NetSound(n) && p in n.eps && Rested(n, p) && ReceivedAll(n, p)
    ensures Closed(n.eps[p].clock, n.sent)
  {
    hide Timed, Stamped, Authentic, Recorded, Bounded, Omniscient;
    var e := n.eps[p];
    forall m | m in n.sent
      ensures !Deliverable(e.clock, m)
    {
      if m.source == p {
        OwnIsStale(n, p, m);
      } else {
        HeldArrived(e, m);
        if m in Log(e.history) {
          LoggedIsStale(n, p, m);
        }
      }
    }
  }

  lemma QuietKnowsAll(n: Net, p: Actor)
    requires NetSound(n) && p in n.eps && Rested(n, p) && ReceivedAll(n, p)
    ensures SameKnowledge(n.eps[p].clock, Totals(n))
  {
    hide Placed, Authentic, Recorded, Totals, Rested, ReceivedAll, Closed, CausalChain, After;
    AllReceivedIsClosed(n, p);
    ClosedClockDominates(map[], n.sent, n.eps[p].clock, n.sent);
    forall a
      ensures Lookup(n.eps[p].clock, a) == Lookup(Totals(n), a)
    {
      BelowAt(After(map[], n.sent), n.eps[p].clock, a);
      BelowAt(n.eps[p].clock, Totals(n), a);
    }
  }

  lemma SentIsStale(n: Net, p: Actor, m: Message)
    requires NetSound(n) && p in n.eps && m in n.sent && SameKnowledge(n.eps[p].clock, Totals(n))
    ensures m.Counter() <= Lookup(n.eps[p].clock, m.source)
  {
    hide Placed, Authentic, Recorded, Omniscient, Totals, Below;
    BelowAt(m.vector, Totals(n), m.source);
  }

  lemma KnowledgeIsPointwise(n: Net, p: Actor)
    requires p in n.eps && SameKnowledge(n.eps[p].clock, Totals(n))
    ensures KnowsAll(n, p)
  {
    hide Totals;
    forall q | q in n.eps
      ensures Lookup(n.eps[p].clock, q) == Lookup(n.eps[q].clock, q)
    {
      OwnTotal(n, q);
    }
  }

  // ------------------------------------------------------------------
  // Which messages an all-knowing endpoint has delivered
  // ------------------------------------------------------------------

  /** A causal message that was delivered was overtaken by nothing: not before, or it would have failed the
      test, and not after, since by then its slot had passed. */
  lemma DeliveredIsNotOvertaken(n: Net, p: Actor, m: Message)
    requires NetSound(n) && p in n.eps && m in Log(n.eps[p].history)
    ensures !Overtaken(n, p, m)
  {
    hide Sound, Authentic, Recorded, Bounded, Omniscient, ClockAt;
    var h := n.eps[p].history;
    var i := InLogIsEvent(h, m);
    if Overtaken(n, p, m) {
      var j: nat :| Jumped(n, p, j, m);
      DeliveredAt(n, p, i);
      if i < j {
        CounterCounted(n, p, i, j);
      } else if j < i {
        CounterCounted(n, p, j, i);
      }
    }
  }

  /** A message whose slot the clock has passed was delivered, or a health message overtook it. */
  lemma PassedIsDeliveredOrOvertaken(n: Net, p: Actor, m: Message)
    requires NetSound(n) && p in n.eps && m in n.sent && m.source != p && !m.Health()
    requires m.Counter() <= Lookup(n.eps[p].clock, m.source)
    ensures m in Log(n.eps[p].history) || Overtaken(n, p, m)
  {
    hide Sound, Authentic, Recorded, Bounded, Omniscient;
    var h := n.eps[p].history;
    SentUnique(n, m, m);
    ClockAtEnd(n, p);
    assert Messages(h)[..|h|] == Messages(h);
    var i := Crossing(Start(p), Messages(h), m.source, m.Counter());
    EventSent(n, p, i);
    if h[i].Sent? {
      SentAt(n, p, i);
    }
    if h[i].msg.Counter() == m.Counter() {
      SentUnique(n, m, h[i].msg);
      InLog(h, i);
    } else {
      if !h[i].msg.Health() {
        DeliveredAt(n, p, i);
      }
      assert Jumped(n, p, i, m);
    }
  }

  lemma HealthIsDelivered(n: Net, p: Actor, m: Message)
    requires Placed(n) && p in n.eps && m in n.eps[p].arrived && m.Health()
    ensures m in Log(n.eps[p].history)
  {
    hide Timed, Stamped;
    HeldArrived(n.eps[p], m);
  }

  lemma DeliveredIffNotOvertaken(n: Net, p: Actor, m: Message)
    requires NetSound(n) && p in n.eps && ReceivedAll(n, p) && SameKnowledge(n.eps[p].clock, Totals(n))
    requires m in n.sent && m.source != p
    ensures m in Log(n.eps[p].history) <==> !Overtaken(n, p, m)
  {
    hide Placed, Authentic, Recorded, Bounded, Omniscient, Totals, Jumped, SameKnowledge, Log;
    if m in Log(n.eps[p].history) {
      DeliveredIsNotOvertaken(n, p, m);
    } else if m.Health() {
      HealthIsDelivered(n, p, m);
    } else {
      SentIsStale(n, p, m);
      PassedIsDeliveredOrOvertaken(n, p, m);
    }
  }

  /** An endpoint that has delivered everything has nothing left that could be delivered. */
  lemma DeliveredAllIsRested(n: Net, p: Actor)
    requires NetSound(n) && p in n.eps && DeliveredAll(n, p)
    ensures Rested(n, p)
  {
    hide Sound, Recorded, Bounded, Omniscient;
    forall m | m in n.eps[p].held
      ensures !Deliverable(n.eps[p].clock, m)
    {
      HeldWasSent(n, p, m);
      if m.source == p {
        OwnIsStale(n, p, m);
      } else {
        LoggedIsStale(n, p, m);
      }
    }
  }

  // ------------------------------------------------------------------
  // The theorems, of every run
  // ------------------------------------------------------------------

  /** Who has received everything and holds nothing ready knows every actor's own counter and holds stale
      copies only, and what it has delivered is exactly what no health message overtook. */
  lemma RestedKnowsAll(actors: set<Actor>, run: seq<Action>, p: Actor)
    requires ValidRun(Boot(actors), run) && p in actors
    requires ReceivedAll(Run(Boot(actors), run), p)
    requires Rested(Run(Boot(actors), run), p)
    ensures var n := Run(Boot(actors), run); var e := n.eps[p];
            && KnowsAll(n, p)
            && (forall m | m in e.held :: m.Counter() <= Lookup(e.clock, m.source))
            && (forall m | m in n.sent && m.source != p :: m in Log(e.history) <==> !Overtaken(n, p, m))
  {
    hide Reached, Rested, ReceivedAll, Overtaken, KnowsAll, Totals, Log;
    ReachedByRun(actors, run);
    var n := Run(Boot(actors), run);
    RestedState(n, p);
  }

  lemma RestedState(n: Net, p: Actor)
    requires Reached(n) && p in n.eps && Rested(n, p) && ReceivedAll(n, p)
    ensures KnowsAll(n, p)
    ensures forall m | m in n.eps[p].held :: m.Counter() <= Lookup(n.eps[p].clock, m.source)
    ensures forall m | m in n.sent && m.source != p :: m in Log(n.eps[p].history) <==> !Overtaken(n, p, m)
  {
    hide Placed, Authentic, Recorded, Bounded, Omniscient, Moments, Rested, ReceivedAll, Overtaken, KnowsAll,
      Totals, SameKnowledge, Log;
    QuietKnowsAll(n, p);
    KnowledgeIsPointwise(n, p);
    forall m | m in n.eps[p].held
      ensures m.Counter() <= Lookup(n.eps[p].clock, m.source)
    {
      HeldWasSent(n, p, m);
      SentIsStale(n, p, m);
    }
    forall m | m in n.sent && m.source != p
      ensures m in Log(n.eps[p].history) <==> !Overtaken(n, p, m)
    {
      DeliveredIffNotOvertaken(n, p, m);
    }
  }

  /** In every run, who has received everything has delivered everything exactly if nothing it holds is
      ready and no health message overtook a causal one there. */
  lemma CompletenessIff(actors: set<Actor>, run: seq<Action>, p: Actor)
    requires ValidRun(Boot(actors), run) && p in actors
    requires ReceivedAll(Run(Boot(actors), run), p)
    ensures var n := Run(Boot(actors), run);
            DeliveredAll(n, p) <==>
              Rested(n, p) && forall m | m in n.sent && m.source != p :: !Overtaken(n, p, m)
  {
    hide NetSound, Moments, Rested, ReceivedAll, Overtaken, Log;
    ReachedByRun(actors, run);
    var n := Run(Boot(actors), run);
    if DeliveredAll(n, p) {
      DeliveredAllIsRested(n, p);
    }
    if Rested(n, p) {
      RestedState(n, p);
    }
  }

  lemma NothingOvertaken(n: Net, p: Actor, m: Message)
    requires Authentic(n) && HealthFree(n.sent) && p in n.eps
    ensures !Overtaken(n, p, m)
  {
    hide ClockAt;
    if Overtaken(n, p, m) {
      var j: nat :| Jumped(n, p, j, m);
      EventSent(n, p, j);
    }
  }

  lemma QuietIsRested(n: Net, p: Actor)
    requires Quiescence.Quiet(n) && p in n.eps
    ensures Rested(n, p)
  {
  }

  /** Without health traffic whoever has received everything has delivered everything; it knows every
      actor's own counter and holds back nothing but stale copies and echoes. */
  lemma CompleteWithoutHealth(actors: set<Actor>, run: seq<Action>, p: Actor)
    requires CausalRun(actors, run) && p in actors
    requires ReceivedAll(Run(Boot(actors), run), p)
    ensures var n := Run(Boot(actors), run); var e := n.eps[p];
            && DeliveredAll(n, p) && KnowsAll(n, p)
            && (forall m | m in e.held :: m.Counter() <= Lookup(e.clock, m.source))
  {
    hide Placed, Recorded, Bounded, Omniscient, Moments, Rested, ReceivedAll, Overtaken, KnowsAll, Log;
    ReachedByRun(actors, run);
    var n := Run(Boot(actors), run);
    Quiescence.HealthFreeNeverStirs(Boot(actors), run);
    Quiescence.QuiescentAlwaysIff(actors, run);
    Quiescence.EndIsQuiet(Boot(actors), run);
    QuietIsRested(n, p);
    RestedState(n, p);
    forall m | m in n.sent && m.source != p
      ensures m in Log(n.eps[p].history)
    {
      NothingOvertaken(n, p, m);
    }
  }
}
