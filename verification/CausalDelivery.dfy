/** Causal delivery over whole runs, and exactly when health traffic ends it. */
module CausalDelivery {
  import opened VectorClocks
  import opened DeliveryChains
  import opened Endpoints
  import opened Networks
  import opened NetworkMoments
  import opened CausalOrder

  /** Everything that happens before a delivered message was delivered before it, except at its sender. */
  ghost predicate CausallyDelivered(n: Net) {
    forall p, k, m1: Message | p in n.eps && 0 <= k < |Log(n.eps[p].history)| && p != m1.source
        && HappensBefore(n, m1, Log(n.eps[p].history)[k]) ::
      m1 in Log(n.eps[p].history)[..k]
  }

  /** No health message ran ahead of the clock that delivered it: its counter was at most one above the
      clock's and no other entry was above it. Repeats and echoes are not ahead. */
  ghost predicate NotAhead(n: Net) {
    forall p, j | p in n.eps && 0 <= j < |n.eps[p].history|
        && n.eps[p].history[j].Delivered? && n.eps[p].history[j].msg.Health() ::
      Due(ClockAt(n, p, j), n.eps[p].history[j].msg)
  }

  lemma HealthFreeIsNotAhead(n: Net)
    requires Authentic(n) && HealthFree(n.sent)
    ensures NotAhead(n)
  {
  }

  lemma EventDue(n: Net, p: Actor, j: nat)
    requires Placed(n) && NotAhead(n) && p in n.eps && j < |n.eps[p].history|
    ensures Due(ClockAt(n, p, j), n.eps[p].history[j].msg)
  {
    hide Sound, ClockAt;
    if n.eps[p].history[j].Sent? {
      SentAt(n, p, j);
    } else if !n.eps[p].history[j].msg.Health() {
      DeliveredAt(n, p, j);
    }
  }

  lemma NotAheadIsCaughtUp(n: Net)
    requires NotAhead(n)
    ensures CaughtUp(n)
  {
    hide ClockAt, Below;
    forall p, i, j | p in n.eps && 0 <= i < j < |n.eps[p].history|
        && n.eps[p].history[i].Delivered? && n.eps[p].history[i].msg.Health() && n.eps[p].history[j].Sent?
      ensures Below(n.eps[p].history[i].msg.vector, ClockAt(n, p, j))
    {
      PassedIsKnown(n, p, i, j);
    }
  }

  // ------------------------------------------------------------------
  // If no health message runs ahead, delivery is causal
  // ------------------------------------------------------------------

  /** Whatever a clock accounts for at a moment of its endpoint's history happened there before. */
  lemma Accounted(n: Net, p: Actor, j: nat, m: Message) returns (i: nat)
    requires NetSound(n) && NotAhead(n) && p in n.eps && m in n.sent
    requires j <= |n.eps[p].history| && m.Counter() <= Lookup(ClockAt(n, p, j), m.source)
    ensures i < j && n.eps[p].history[i].msg == m
    ensures m.source != p ==> n.eps[p].history[i] == Delivered(m)
  {
    hide Sound, Authentic, Recorded, Bounded, Omniscient, NotAhead;
    var h := n.eps[p].history;
    var ms := Messages(h)[..j];
    forall x | 0 <= x < |ms| && ms[x].source == m.source
      ensures ms[x].Counter() <= Lookup(After(Start(p), ms[..x]), m.source) + 1
    {
      EventDue(n, p, x);
      assert ms[..x] == Messages(h)[..x];
    }
    SentUnique(n, m, m);
    i := DueSlotFilled(Start(p), ms, m.source, m.Counter());
    EventSent(n, p, i);
    SentUnique(n, m, h[i].msg);
    if h[i].Sent? {
      SentAt(n, p, i);
    }
  }

  lemma HappensBeforeRaises(n: Net, m1: Message, m2: Message)
    requires Placed(n) && NotAhead(n) && HappensBefore(n, m1, m2)
    ensures Below(m1.vector, m2.vector)
  {
    hide Sound, NotAhead, Leads;
    NotAheadIsCaughtUp(n);
    var via :| Leads(n, m1, via, m2);
    LeadsRaises(n, m1, via, m2);
  }

  /** A delivery of `m2` at `p` is preceded in `p`'s log by everything `m2` depends on. */
  lemma DependenciesFirst(n: Net, p: Actor, k: nat, m1: Message)
    requires Reached(n) && NotAhead(n) && p in n.eps && k < |Log(n.eps[p].history)|
    requires p != m1.source && HappensBefore(n, m1, Log(n.eps[p].history)[k])
    ensures m1 in Log(n.eps[p].history)[..k]
  {
    hide Placed, Authentic, Recorded, Bounded, Omniscient, Moments, NotAhead, HappensBefore, ClockAt, Due, Below;
    var h := n.eps[p].history;
    var m2 := Log(h)[k];
    var j := LogIndex(h, k);
    HappensBeforePrecedes(n, m1, m2);
    HappensBeforeRaises(n, m1, m2);
    EventDue(n, p, j);
    PassedIsKnown(n, p, j, j + 1);
    BelowAt(m1.vector, m2.vector, m1.source);
    BelowAt(m2.vector, ClockAt(n, p, j + 1), m1.source);
    var i := Accounted(n, p, j + 1, m1);
    assert i < j && h[..j][i] == h[i];
    InLog(h[..j], i);
  }

  // ------------------------------------------------------------------
  // If delivery is causal, no health message runs ahead
  // ------------------------------------------------------------------

  /** What happened before a delivery was delivered before it, so its counter is known by then. */
  lemma CauseCounted(n: Net, p: Actor, j: nat, x: Message)
    requires CausallyDelivered(n) && p in n.eps && j < |n.eps[p].history| && n.eps[p].history[j].Delivered?
    requires Directly(n, x, n.eps[p].history[j].msg) && x.source != p
    ensures x.Counter() <= Lookup(ClockAt(n, p, j), x.source)
  {
    hide ClockAt, Directly, HappensBefore;
    var h := n.eps[p].history;
    DirectlyHappensBefore(n, x, h[j].msg);
    PlaceInLog(h, j);
    var i := InLogIsEvent(h[..j], x);
    assert h[i] == h[..j][i];
    CounterCounted(n, p, i, j);
  }

  lemma OtherEntriesKnown(n: Net, p: Actor, j: nat, a: Actor)
    requires Reached(n) && CausallyDelivered(n)
    requires p in n.eps && j < |n.eps[p].history| && n.eps[p].history[j].Delivered?
    requires a != n.eps[p].history[j].msg.source
    ensures Lookup(n.eps[p].history[j].msg.vector, a) <= Lookup(ClockAt(n, p, j), a)
  {
    hide Placed, Authentic, Recorded, Bounded, Omniscient, Moments, CausallyDelivered, ClockAt, Directly;
    var m := n.eps[p].history[j].msg;
    EventSent(n, p, j);
    if a == p {
      OwnFirstAt(n, p, j);
    } else if Lookup(m.vector, a) >= 1 {
      var x := EntryAttained(n, m, a);
      CauseCounted(n, p, j, x);
    }
  }

  lemma CounterAtMostNext(n: Net, p: Actor, j: nat)
    requires Reached(n) && CausallyDelivered(n)
    requires p in n.eps && j < |n.eps[p].history| && n.eps[p].history[j].Delivered?
    ensures var m := n.eps[p].history[j].msg; m.Counter() <= Lookup(ClockAt(n, p, j), m.source) + 1
  {
    hide Placed, Authentic, Recorded, Bounded, Omniscient, Moments, CausallyDelivered, ClockAt, Directly;
    var m := n.eps[p].history[j].msg;
    EventSent(n, p, j);
    if m.source == p {
      OwnFirstAt(n, p, j);
    } else if m.Counter() >= 2 {
      var x := ClaimedWasSent(n, m, m.source, m.Counter() - 1);
      SameSenderDirectly(n, x, m);
      CauseCounted(n, p, j, x);
    }
  }

  lemma CausalIsNotAhead(n: Net)
    requires Reached(n) && CausallyDelivered(n)
    ensures NotAhead(n)
  {
    hide Reached, CausallyDelivered, ClockAt;
    forall p, j | p in n.eps && 0 <= j < |n.eps[p].history|
        && n.eps[p].history[j].Delivered? && n.eps[p].history[j].msg.Health()
      ensures Due(ClockAt(n, p, j), n.eps[p].history[j].msg)
    {
      var m := n.eps[p].history[j].msg;
      CounterAtMostNext(n, p, j);
      forall a | a in m.vector && a != m.source
        ensures m.vector[a] <= Lookup(ClockAt(n, p, j), a)
      {
        OtherEntriesKnown(n, p, j, a);
      }
    }
  }

  // ------------------------------------------------------------------
  // The theorems, of every run
  // ------------------------------------------------------------------

  /** In every run, whatever traffic it carries, delivery is causal exactly if no health message ever runs
      ahead of the clock that delivers it. */
  lemma CausalDeliveryIff(actors: set<Actor>, run: seq<Action>)
    requires ValidRun(Boot(actors), run)
    ensures CausallyDelivered(Run(Boot(actors), run)) <==> NotAhead(Run(Boot(actors), run))
  {
    hide Reached, NotAhead, ClockAt, HappensBefore, Log;
    ReachedByRun(actors, run);
    var n := Run(Boot(actors), run);
    if NotAhead(n) {
      forall p, k, m1: Message | p in n.eps && 0 <= k < |Log(n.eps[p].history)| && p != m1.source
          && HappensBefore(n, m1, Log(n.eps[p].history)[k])
        ensures m1 in Log(n.eps[p].history)[..k]
      {
        DependenciesFirst(n, p, k, m1);
      }
    }
    if CausallyDelivered(n) {
      CausalIsNotAhead(n);
    }
  }

  /** Causal delivery without health traffic: if m1 happens before m2, every delivery of m2 anywhere but at
      m1's sender is preceded by m1 in that endpoint's delivery log. */
  lemma CausalDelivery(actors: set<Actor>, run: seq<Action>, m1: Message, m2: Message, p: Actor, k: nat)
    requires CausalRun(actors, run) && p in actors && p != m1.source
    requires HappensBefore(Run(Boot(actors), run), m1, m2)
    requires var log := Log(Run(Boot(actors), run).eps[p].history); k < |log| && log[k] == m2
    ensures m1 in Log(Run(Boot(actors), run).eps[p].history)[..k]
  {
    hide HappensBefore, NotAhead, Moments;
    ReachedByRun(actors, run);
    HealthFreeIsNotAhead(Run(Boot(actors), run));
    CausalDeliveryIff(actors, run);
  }

  /** Where delivery is causal the closure adds nothing: whoever sent m2 had itself sent or delivered m1;
      and vector clocks characterise the order. */
  lemma CausalOrderIsDirect(actors: set<Actor>, run: seq<Action>, m1: Message, m2: Message)
    requires ValidRun(Boot(actors), run) && CausallyDelivered(Run(Boot(actors), run))
    requires m1 in Run(Boot(actors), run).sent && m2 in Run(Boot(actors), run).sent && m1 != m2
    ensures var n := Run(Boot(actors), run);
            && (HappensBefore(n, m1, m2) <==> Directly(n, m1, m2))
            && (HappensBefore(n, m1, m2) <==> m1.Counter() <= Lookup(m2.vector, m1.source))
  {
    hide Placed, Authentic, Recorded, Bounded, Omniscient, Moments, CausallyDelivered, NotAhead, CaughtUp,
      HappensBefore, Directly;
    ReachedByRun(actors, run);
    CausalDeliveryIff(actors, run);
    var n := Run(Boot(actors), run);
    NotAheadIsCaughtUp(n);
    CaughtUpCharacterises(n);
    if Directly(n, m1, m2) {
      DirectlyHappensBefore(n, m1, m2);
    }
    if m1.Counter() <= Lookup(m2.vector, m1.source) {
      ReflectedIsDirect(n, m1, m2);
    }
  }

  lemma ReflectedIsDirect(n: Net, m1: Message, m2: Message)
    requires NetSound(n) && NotAhead(n) && m1 in n.sent && m2 in n.sent && m1 != m2
    requires m1.Counter() <= Lookup(m2.vector, m1.source)
    ensures Directly(n, m1, m2)
  {
    hide Placed, Authentic, Recorded, Bounded, Omniscient, NotAhead, ClockAt;
    var j := SentAtSource(n, m2);
    SentAt(n, m2.source, j);
    var i := Accounted(n, m2.source, j + 1, m1);
    assert i < j;
  }
}
