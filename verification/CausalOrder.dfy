/** Happens-before over whole runs of a network, and what vector clocks say of it.

    Health messages skip the deliverability test (causal_broadcast.py:87-90); everything here holds of every
    run, and where health traffic matters the condition is exact. */
module CausalOrder {
  import opened VectorClocks
  import opened DeliveryChains
  import opened Endpoints
  import opened Networks
  import opened NetworkMoments

  /** The sender of `m2` had sent or delivered `m1` before it sent `m2`. */
  ghost predicate Directly(n: Net, m1: Message, m2: Message) {
    && m2.source in n.eps
    && var h := n.eps[m2.source].history;
       exists i, j :: 0 <= i < j < |h| && h[i].msg == m1 && h[j] == Sent(m2)
  }

  ghost predicate Leads(n: Net, m1: Message, via: seq<Message>, m2: Message)
    decreases |via|
  {
    if via == [] then Directly(n, m1, m2)
    else Directly(n, m1, via[0]) && Leads(n, via[0], via[1..], m2)
  }

  /** The transitive closure of `Directly`: no clocks are mentioned. */
  ghost predicate HappensBefore(n: Net, m1: Message, m2: Message) {
    exists via :: Leads(n, m1, via, m2)
  }

  lemma DirectlyHappensBefore(n: Net, m1: Message, m2: Message)
    requires Directly(n, m1, m2)
    ensures HappensBefore(n, m1, m2)
  {
    assert Leads(n, m1, [], m2);
  }

  lemma {:induction false} LeadsOn(n: Net, m1: Message, via: seq<Message>, m2: Message, more: seq<Message>, m3: Message)
    requires Leads(n, m1, via, m2) && Leads(n, m2, more, m3)
    ensures Leads(n, m1, via + [m2] + more, m3)
    decreases |via|
  {
    hide Directly;
    var all := via + [m2] + more;
    if via == [] {
      assert all[1..] == more;
    } else {
      LeadsOn(n, via[0], via[1..], m2, more, m3);
      assert all[1..] == via[1..] + [m2] + more;
    }
  }

  lemma HappensBeforeTransitive(n: Net, m1: Message, m2: Message, m3: Message)
    requires HappensBefore(n, m1, m2) && HappensBefore(n, m2, m3)
    ensures HappensBefore(n, m1, m3)
  {
    hide Leads;
    var via :| Leads(n, m1, via, m2);
    var more :| Leads(n, m2, more, m3);
    LeadsOn(n, m1, via, m2, more, m3);
  }

  // ------------------------------------------------------------------
  // Reading a reachable state
  // ------------------------------------------------------------------

  /** The clock of `p` just before the j-th event of its history. */
  function ClockAt(n: Net, p: Actor, j: nat): Clock
    requires p in n.eps && j <= |n.eps[p].history|
  {
    After(Start(p), Messages(n.eps[p].history)[..j])
  }

  lemma ClockAtGrows(n: Net, p: Actor, i: nat, j: nat)
    requires p in n.eps && i <= j <= |n.eps[p].history|
    ensures Below(ClockAt(n, p, i), ClockAt(n, p, j))
  {
    PrefixGrows(Start(p), Messages(n.eps[p].history), i, j);
  }

  lemma ClockAtEnd(n: Net, p: Actor)
    requires Placed(n) && p in n.eps
    ensures ClockAt(n, p, |n.eps[p].history|) == n.eps[p].clock
  {
    assert Messages(n.eps[p].history)[..|n.eps[p].history|] == Messages(n.eps[p].history);
  }

  /** The counter of an event is known right after it. */
  lemma CounterCounted(n: Net, p: Actor, i: nat, j: nat)
    requires p in n.eps && i < j <= |n.eps[p].history|
    ensures n.eps[p].history[i].msg.Counter() <= Lookup(ClockAt(n, p, j), n.eps[p].history[i].msg.source)
  {
    CounterKnown(Start(p), Messages(n.eps[p].history), i, j);
  }

  /** A sent message carries its sender's clock of the moment, and took the next counter. */
  lemma SentAt(n: Net, p: Actor, j: nat)
    requires Placed(n) && p in n.eps && j < |n.eps[p].history| && n.eps[p].history[j].Sent?
    ensures var m := n.eps[p].history[j].msg;
            m.source == p && m.vector == ClockAt(n, p, j + 1) && Deliverable(ClockAt(n, p, j), m)
  {
    hide Timed, Conserved;
    assert Sound(n.eps[p]);
  }

  /** So did, by the test, every causal message that was delivered. */
  lemma DeliveredAt(n: Net, p: Actor, j: nat)
    requires Placed(n) && p in n.eps && j < |n.eps[p].history|
    requires n.eps[p].history[j].Delivered? && !n.eps[p].history[j].msg.Health()
    ensures Deliverable(ClockAt(n, p, j), n.eps[p].history[j].msg)
  {
    hide Stamped, Conserved;
    assert Sound(n.eps[p]);
    ChainAt(Start(p), Messages(n.eps[p].history), j);
  }

  lemma EventSent(n: Net, p: Actor, j: nat)
    requires Authentic(n) && p in n.eps && j < |n.eps[p].history|
    ensures n.eps[p].history[j].msg in n.sent
  {
    assert n.eps[p].history[j] in n.eps[p].history;
  }

  lemma SentAtSource(n: Net, m: Message) returns (j: nat)
    requires Recorded(n) && m in n.sent
    ensures m.source in n.eps && j < |n.eps[m.source].history| && n.eps[m.source].history[j] == Sent(m)
  {
    assert Sent(m) in n.eps[m.source].history;
    j :| j < |n.eps[m.source].history| && n.eps[m.source].history[j] == Sent(m);
  }

  /** Messages of the network are told apart by sender and counter, and counters start at 1. */
  lemma SentUnique(n: Net, x: Message, y: Message)
    requires Omniscient(n) && x in n.sent && y in n.sent
    requires x.source == y.source && x.Counter() == y.Counter()
    ensures x == y && x.Counter() >= 1
  {
    var i :| 0 <= i < |n.sent| && n.sent[i] == x;
    var j :| 0 <= j < |n.sent| && n.sent[j] == y;
    SlotUnique(map[], n.sent, i, j);
    CausalChainAt(map[], n.sent, i);
  }

  /** Whatever any message of the network claims to know of an actor, that actor did send. */
  lemma ClaimedWasSent(n: Net, m: Message, a: Actor, k: int) returns (x: Message)
    requires Omniscient(n) && m in n.sent && 1 <= k <= Lookup(m.vector, a)
    ensures x in n.sent && x.source == a && x.Counter() == k
  {
    var i :| 0 <= i < |n.sent| && n.sent[i] == m;
    CausalChainAt(map[], n.sent, i);
    KnownAfter(map[], n.sent, i);
    BelowAt(m.vector, After(map[], n.sent), a);
    var y := SlotFilled(map[], n.sent, a, k);
    x := n.sent[y];
  }

  // ------------------------------------------------------------------
  // Happens-before is a strict order in every run
  // ------------------------------------------------------------------

  lemma SentTwice(n: Net, x: nat, y: nat)
    requires Omniscient(n) && x < |n.sent| && y < |n.sent| && n.sent[x] == n.sent[y]
    ensures x == y
  {
    SlotUnique(map[], n.sent, x, y);
  }

  lemma DirectlyPrecedes(n: Net, m1: Message, m2: Message)
    requires Moments(n) && Directly(n, m1, m2)
    ensures Precedes(n.sent, m1, m2)
  {
    hide OwnFirst, Precedes;
    var h := n.eps[m2.source].history;
    var i, j :| 0 <= i < j < |h| && h[i].msg == m1 && h[j] == Sent(m2);
    assert SentInOrder(n.sent, h);
  }

  lemma PrecedesTransitive(n: Net, m1: Message, m2: Message, m3: Message)
    requires Omniscient(n) && Precedes(n.sent, m1, m2) && Precedes(n.sent, m2, m3)
    ensures Precedes(n.sent, m1, m3)
  {
    hide Omniscient;
    var x, y :| 0 <= x < y < |n.sent| && n.sent[x] == m1 && n.sent[y] == m2;
    var y', z :| 0 <= y' < z < |n.sent| && n.sent[y'] == m2 && n.sent[z] == m3;
    SentTwice(n, y, y');
  }

  lemma {:induction false} LeadsPrecedes(n: Net, m1: Message, via: seq<Message>, m2: Message)
    requires Reached(n) && Leads(n, m1, via, m2)
    ensures Precedes(n.sent, m1, m2)
    decreases |via|
  {
    hide Placed, Authentic, Recorded, Bounded, Omniscient, Moments, Directly, Precedes;
    if via == [] {
      DirectlyPrecedes(n, m1, m2);
    } else {
      DirectlyPrecedes(n, m1, via[0]);
      LeadsPrecedes(n, via[0], via[1..], m2);
      PrecedesTransitive(n, m1, via[0], m2);
    }
  }

  lemma HappensBeforePrecedes(n: Net, m1: Message, m2: Message)
    requires Reached(n) && HappensBefore(n, m1, m2)
    ensures m1 in n.sent && m2 in n.sent && m1 != m2
  {
    hide Moments, Leads, Placed, Authentic, Recorded, Bounded;
    var via :| Leads(n, m1, via, m2);
    LeadsPrecedes(n, m1, via, m2);
    var x, y :| 0 <= x < y < |n.sent| && n.sent[x] == m1 && n.sent[y] == m2;
    if m1 == m2 {
      SentTwice(n, x, y);
    }
  }

  // ------------------------------------------------------------------
  // A vector entry is always evidence
  // ------------------------------------------------------------------

  lemma SameSenderDirectly(n: Net, m1: Message, m2: Message)
    requires NetSound(n) && m1 in n.sent && m2 in n.sent
    requires m1.source == m2.source && m1.Counter() < m2.Counter()
    ensures Directly(n, m1, m2)
  {
    hide Placed, Authentic, Recorded, Bounded, Omniscient, ClockAt;
    var p := m1.source;
    var i := SentAtSource(n, m1);
    var j := SentAtSource(n, m2);
    SentAt(n, p, i);
    SentAt(n, p, j);
    if j < i {
      CounterCounted(n, p, j, i);
    }
    assert n.eps[p].history[i].msg == m1;
  }

  /** What a message says of another actor is the counter of something its sender had delivered. */
  lemma EntryAttained(n: Net, m: Message, a: Actor) returns (x: Message)
    requires NetSound(n) && m in n.sent && a != m.source && Lookup(m.vector, a) >= 1
    ensures x in n.sent && x.source == a && x.Counter() == Lookup(m.vector, a) && Directly(n, x, m)
  {
    hide Placed, Authentic, Recorded, Bounded, Omniscient;
    var p := m.source;
    var j := SentAtSource(n, m);
    SentAt(n, p, j);
    var ms := Messages(n.eps[p].history);
    var i := Attained(Start(p), ms[..j + 1], a);
    x := ms[i];
    assert ms[..j + 1][i] == ms[i] && n.eps[p].history[i].msg == x;
    EventSent(n, p, i);
  }

  /** In every run: an entry that reaches a message's counter is evidence that the message came before. */
  lemma ReflectedHappensBefore(n: Net, m1: Message, m2: Message)
    requires NetSound(n) && m1 in n.sent && m2 in n.sent && m1 != m2
    requires m1.Counter() <= Lookup(m2.vector, m1.source)
    ensures HappensBefore(n, m1, m2)
  {
    hide Placed, Authentic, Recorded, Bounded, Omniscient, Directly, HappensBefore;
    SentUnique(n, m1, m1);
    var x := m2;
    if m1.source != m2.source {
      x := EntryAttained(n, m2, m1.source);
      DirectlyHappensBefore(n, x, m2);
    }
    if m1.Counter() == x.Counter() {
      SentUnique(n, m1, x);
    } else {
      SameSenderDirectly(n, m1, x);
      DirectlyHappensBefore(n, m1, x);
      if x != m2 {
        HappensBeforeTransitive(n, m1, x, m2);
      }
    }
  }

  // ------------------------------------------------------------------
  // When vector clocks characterise happens-before
  // ------------------------------------------------------------------

  /** Whenever an endpoint sends, its clock has caught up with every health message it had delivered. */
  ghost predicate CaughtUp(n: Net) {
    forall p, i, j | p in n.eps && 0 <= i < j < |n.eps[p].history|
        && n.eps[p].history[i].Delivered? && n.eps[p].history[i].msg.Health() && n.eps[p].history[j].Sent? ::
      Below(n.eps[p].history[i].msg.vector, ClockAt(n, p, j))
  }

  ghost predicate ClocksCharacterise(n: Net) {
    forall m1, m2 | m1 in n.sent && m2 in n.sent && m1 != m2 ::
      HappensBefore(n, m1, m2) <==> m1.Counter() <= Lookup(m2.vector, m1.source)
  }

  /** A message that passed the test is known to its receiver from then on. */
  lemma PassedIsKnown(n: Net, p: Actor, i: nat, j: nat)
    requires p in n.eps && i < j <= |n.eps[p].history|
    requires Due(ClockAt(n, p, i), n.eps[p].history[i].msg)
    ensures Below(n.eps[p].history[i].msg.vector, ClockAt(n, p, j))
  {
    DueKnown(Start(p), Messages(n.eps[p].history), i, j);
  }

  lemma DirectlyRaises(n: Net, m1: Message, m2: Message)
    requires Placed(n) && CaughtUp(n) && Directly(n, m1, m2)
    ensures Below(m1.vector, m2.vector)
  {
    hide Sound, ClockAt, Below;
    var p := m2.source;
    var h := n.eps[p].history;
    var i, j :| 0 <= i < j < |h| && h[i].msg == m1 && h[j] == Sent(m2);
    SentAt(n, p, j);
    if h[i].Sent? {
      SentAt(n, p, i);
      PassedIsKnown(n, p, i, j + 1);
    } else if m1.Health() {
      ClockAtGrows(n, p, j, j + 1);
      BelowTransitive(m1.vector, ClockAt(n, p, j), ClockAt(n, p, j + 1));
    } else {
      DeliveredAt(n, p, i);
      PassedIsKnown(n, p, i, j + 1);
    }
  }

  lemma {:induction false} LeadsRaises(n: Net, m1: Message, via: seq<Message>, m2: Message)
    requires Placed(n) && CaughtUp(n) && Leads(n, m1, via, m2)
    ensures Below(m1.vector, m2.vector)
    decreases |via|
  {
    hide Placed, CaughtUp, Directly, Below;
    if via == [] {
      DirectlyRaises(n, m1, m2);
    } else {
      DirectlyRaises(n, m1, via[0]);
      LeadsRaises(n, via[0], via[1..], m2);
      BelowTransitive(m1.vector, via[0].vector, m2.vector);
    }
  }

  lemma CaughtUpCharacterises(n: Net)
    requires Reached(n) && CaughtUp(n)
    ensures ClocksCharacterise(n)
  {
    hide Placed, Authentic, Recorded, Bounded, Omniscient, Moments, CaughtUp, Leads;
    forall m1, m2 | m1 in n.sent && m2 in n.sent && m1 != m2
      ensures HappensBefore(n, m1, m2) <==> m1.Counter() <= Lookup(m2.vector, m1.source)
    {
      if HappensBefore(n, m1, m2) {
        var via :| Leads(n, m1, via, m2);
        LeadsRaises(n, m1, via, m2);
        BelowAt(m1.vector, m2.vector, m1.source);
      }
      if m1.Counter() <= Lookup(m2.vector, m1.source) {
        ReflectedHappensBefore(n, m1, m2);
      }
    }
  }

  /** If the clocks characterise happens-before, a sender knew all entries of a health message `m1` it had
      delivered: the entry names a message that happened before `m1`, hence before what was sent. */
  lemma EntryWasKnown(n: Net, p: Actor, i: nat, j: nat, a: Actor)
    requires Reached(n) && ClocksCharacterise(n)
    requires p in n.eps && i < j < |n.eps[p].history|
    requires n.eps[p].history[i].Delivered? && n.eps[p].history[j].Sent?
    ensures Lookup(n.eps[p].history[i].msg.vector, a) <= Lookup(ClockAt(n, p, j), a)
  {
    hide Placed, Authentic, Recorded, Bounded, Omniscient, ClockAt, HappensBefore;
    var h := n.eps[p].history;
    var m1, m2 := h[i].msg, h[j].msg;
    var k := Lookup(m1.vector, a);
    EventSent(n, p, i);
    EventSent(n, p, j);
    SentAt(n, p, j);
    if a == m1.source {
      CounterCounted(n, p, i, j);
    } else if a == p {
      OwnFirstAt(n, p, i);
      ClockAtGrows(n, p, i, j);
      BelowAt(ClockAt(n, p, i), ClockAt(n, p, j), a);
    } else if k >= 1 {
      var x := ClaimedWasSent(n, m1, a, k);
      ReflectedHappensBefore(n, x, m1);
      assert Directly(n, m1, m2);
      DirectlyHappensBefore(n, m1, m2);
      HappensBeforeTransitive(n, x, m1, m2);
      SendRaisesOwn(n, p, j, a);
    }
  }

  lemma OwnFirstAt(n: Net, p: Actor, i: nat)
    requires Moments(n) && p in n.eps && i < |n.eps[p].history| && n.eps[p].history[i].Delivered?
    ensures Lookup(n.eps[p].history[i].msg.vector, p) <= Lookup(ClockAt(n, p, i), p)
  {
    hide SentInOrder;
    assert OwnFirst(p, n.eps[p].history);
  }

  lemma SendRaisesOwn(n: Net, p: Actor, j: nat, a: Actor)
    requires Placed(n) && p in n.eps && j < |n.eps[p].history| && n.eps[p].history[j].Sent? && a != p
    ensures Lookup(ClockAt(n, p, j + 1), a) == Lookup(ClockAt(n, p, j), a)
  {
    hide After;
    SentAt(n, p, j);
    AfterSnoc(Start(p), Messages(n.eps[p].history), j);
    AdvanceLookup(ClockAt(n, p, j), n.eps[p].history[j].msg, a);
  }

  lemma CharacterisedIsCaughtUp(n: Net)
    requires Reached(n) && ClocksCharacterise(n)
    ensures CaughtUp(n)
  {
    hide Reached, ClocksCharacterise, ClockAt;
    forall p, i, j | p in n.eps && 0 <= i < j < |n.eps[p].history|
        && n.eps[p].history[i].Delivered? && n.eps[p].history[i].msg.Health() && n.eps[p].history[j].Sent?
      ensures Below(n.eps[p].history[i].msg.vector, ClockAt(n, p, j))
    {
      forall a
        ensures Lookup(n.eps[p].history[i].msg.vector, a) <= Lookup(ClockAt(n, p, j), a)
      {
        EntryWasKnown(n, p, i, j, a);
      }
    }
  }

  // ------------------------------------------------------------------
  // When the closure adds nothing
  // ------------------------------------------------------------------

  ghost predicate ClosureIsDirect(n: Net) {
    forall m1, m2 | HappensBefore(n, m1, m2) :: Directly(n, m1, m2)
  }

  ghost predicate Before(n: Net, p: Actor, j: nat, x: Message)
    requires p in n.eps && j <= |n.eps[p].history|
  {
    exists k :: 0 <= k < j && n.eps[p].history[k].msg == x
  }

  /** Whenever an endpoint sends, it has sent or delivered everything that the health messages it delivered
      claim to know. */
  ghost predicate NothingMissing(n: Net) {
    forall p, i, j, x | p in n.eps && 0 <= i < j < |n.eps[p].history|
        && n.eps[p].history[i].Delivered? && n.eps[p].history[i].msg.Health() && n.eps[p].history[j].Sent?
        && x in n.sent && x.Counter() <= Lookup(n.eps[p].history[i].msg.vector, x.source) ::
      Before(n, p, j, x)
  }

  lemma DirectlyReflected(n: Net, m1: Message, m2: Message)
    requires Placed(n) && Directly(n, m1, m2)
    ensures m1.Counter() <= Lookup(m2.vector, m1.source)
  {
    hide Sound, ClockAt;
    var p := m2.source;
    var i, j :| 0 <= i < j < |n.eps[p].history| && n.eps[p].history[i].msg == m1 && n.eps[p].history[j] == Sent(m2);
    SentAt(n, p, j);
    CounterCounted(n, p, i, j + 1);
  }

  /** What the clock of a sender has passed was sent or delivered there, if nothing is missing. */
  lemma PassedIsBefore(n: Net, p: Actor, i: nat, j: nat, x: Message)
    requires NetSound(n) && NothingMissing(n) && x in n.sent
    requires p in n.eps && i < j < |n.eps[p].history| && n.eps[p].history[j].Sent?
    requires x.Counter() <= Lookup(ClockAt(n, p, i), x.source)
    ensures Before(n, p, j, x)
  {
    hide Placed, Authentic, Recorded, Bounded, Omniscient, NothingMissing;
    var h := n.eps[p].history;
    SentUnique(n, x, x);
    var k := Crossing(Start(p), Messages(h)[..i], x.source, x.Counter());
    assert Messages(h)[..i][..k] == Messages(h)[..k];
    EventSent(n, p, k);
    if h[k].msg.Counter() == x.Counter() {
      SentUnique(n, x, h[k].msg);
    } else {
      if h[k].Sent? {
        SentAt(n, p, k);
      } else if !h[k].msg.Health() {
        DeliveredAt(n, p, k);
      }
      HealthClaimIsBefore(n, p, k, j, x);
    }
  }

  lemma HealthClaimIsBefore(n: Net, p: Actor, i: nat, j: nat, x: Message)
    requires NothingMissing(n) && x in n.sent && p in n.eps && i < j < |n.eps[p].history|
    requires n.eps[p].history[i].Delivered? && n.eps[p].history[i].msg.Health() && n.eps[p].history[j].Sent?
    requires x.Counter() <= Lookup(n.eps[p].history[i].msg.vector, x.source)
    ensures Before(n, p, j, x)
  {
    hide Before;
  }

  lemma DirectlyComposes(n: Net, m1: Message, m2: Message, m3: Message)
    requires Reached(n) && NothingMissing(n) && Directly(n, m1, m2) && Directly(n, m2, m3)
    ensures Directly(n, m1, m3)
  {
    hide Placed, Authentic, Recorded, Bounded, Omniscient, Moments, NothingMissing, ClockAt, Leads;
    var p := m3.source;
    var h := n.eps[p].history;
    var i, j :| 0 <= i < j < |h| && h[i].msg == m2 && h[j] == Sent(m3);
    DirectlyHappensBefore(n, m1, m2);
    HappensBeforePrecedes(n, m1, m2);
    DirectlyReflected(n, m1, m2);
    if h[i].Delivered? && m2.Health() {
      HealthClaimIsBefore(n, p, i, j, m1);
    } else {
      if h[i].Sent? {
        SentAt(n, p, i);
      } else {
        DeliveredAt(n, p, i);
      }
      if m1.source == m2.source && m1.Counter() == m2.Counter() {
        SentUnique(n, m1, m2);
      }
      PassedIsBefore(n, p, i, j, m1);
    }
  }

  lemma {:induction false} LeadsIsDirect(n: Net, m1: Message, via: seq<Message>, m2: Message)
    requires Reached(n) && NothingMissing(n) && Leads(n, m1, via, m2)
    ensures Directly(n, m1, m2)
    decreases |via|
  {
    hide Reached, NothingMissing, Directly;
    if via != [] {
      LeadsIsDirect(n, via[0], via[1..], m2);
      DirectlyComposes(n, m1, via[0], m2);
    }
  }

  lemma ClaimIsBeforeSend(n: Net, p: Actor, i: nat, j: nat, x: Message)
    requires Reached(n) && ClosureIsDirect(n) && x in n.sent
    requires p in n.eps && i < j < |n.eps[p].history| && n.eps[p].history[j].Sent?
    requires x.Counter() <= Lookup(n.eps[p].history[i].msg.vector, x.source)
    ensures Before(n, p, j, x)
  {
    hide Placed, Authentic, Recorded, Bounded, Omniscient, Moments, ClockAt, HappensBefore;
    var h := n.eps[p].history;
    var m1, m2 := h[i].msg, h[j].msg;
    SentAt(n, p, j);
    if x != m1 {
      EventSent(n, p, i);
      ReflectedHappensBefore(n, x, m1);
      assert Directly(n, m1, m2);
      DirectlyHappensBefore(n, m1, m2);
      HappensBeforeTransitive(n, x, m1, m2);
      var k, l :| 0 <= k < l < |h| && h[k].msg == x && h[l] == Sent(m2);
      SentAt(n, p, l);
      if l < j {
        CounterCounted(n, p, l, j);
      } else if j < l {
        CounterCounted(n, p, j, l);
      }
    }
  }

  // ------------------------------------------------------------------
  // The theorems, of every run
  // ------------------------------------------------------------------

  /** Happens-before is a strict order, health traffic included. */
  lemma HappensBeforeIsStrict(actors: set<Actor>, run: seq<Action>, m1: Message, m2: Message, m3: Message)
    requires ValidRun(Boot(actors), run)
    ensures var n := Run(Boot(actors), run);
            && !HappensBefore(n, m1, m1)
            && (HappensBefore(n, m1, m2) && HappensBefore(n, m2, m3) ==> HappensBefore(n, m1, m3))
            && !(HappensBefore(n, m1, m2) && HappensBefore(n, m2, m1))
  {
    hide Reached, HappensBefore;
    ReachedByRun(actors, run);
    var n := Run(Boot(actors), run);
    if HappensBefore(n, m1, m1) {
      HappensBeforePrecedes(n, m1, m1);
    }
    if HappensBefore(n, m1, m2) && HappensBefore(n, m2, m3) {
      HappensBeforeTransitive(n, m1, m2, m3);
    }
    if HappensBefore(n, m1, m2) && HappensBefore(n, m2, m1) {
      HappensBeforeTransitive(n, m1, m2, m1);
      HappensBeforePrecedes(n, m1, m1);
    }
  }

  /** One half never fails: a vector never claims what did not come before. */
  lemma VectorsNeverOverclaim(actors: set<Actor>, run: seq<Action>, m1: Message, m2: Message)
    requires ValidRun(Boot(actors), run) && m1 != m2
    requires m1 in Run(Boot(actors), run).sent && m2 in Run(Boot(actors), run).sent
    requires m1.Counter() <= Lookup(m2.vector, m1.source)
    ensures HappensBefore(Run(Boot(actors), run), m1, m2)
  {
    hide Moments;
    ReachedByRun(actors, run);
    ReflectedHappensBefore(Run(Boot(actors), run), m1, m2);
  }

  /** In every run vector clocks characterise happens-before exactly if no endpoint ever sends while its
      clock is behind a health message it had delivered. */
  lemma ClocksCharacteriseIff(actors: set<Actor>, run: seq<Action>)
    requires ValidRun(Boot(actors), run)
    ensures ClocksCharacterise(Run(Boot(actors), run)) <==> CaughtUp(Run(Boot(actors), run))
  {
    hide Reached, ClocksCharacterise, CaughtUp;
    ReachedByRun(actors, run);
    var n := Run(Boot(actors), run);
    if CaughtUp(n) {
      CaughtUpCharacterises(n);
    }
    if ClocksCharacterise(n) {
      CharacterisedIsCaughtUp(n);
    }
  }

  /** In every run whoever sends m2 had itself sent or delivered all that happens before m2, exactly if whoever
      sends has sent or delivered everything that the health messages it delivered claim to know. */
  lemma ClosureIsDirectIff(actors: set<Actor>, run: seq<Action>)
    requires ValidRun(Boot(actors), run)
    ensures ClosureIsDirect(Run(Boot(actors), run)) <==> NothingMissing(Run(Boot(actors), run))
  {
    hide Reached, Directly, Leads, Before;
    ReachedByRun(actors, run);
    var n := Run(Boot(actors), run);
    if NothingMissing(n) {
      forall m1, m2 | HappensBefore(n, m1, m2)
        ensures Directly(n, m1, m2)
      {
        var via :| Leads(n, m1, via, m2);
        LeadsIsDirect(n, m1, via, m2);
      }
    }
    if ClosureIsDirect(n) {
      forall p, i, j, x | p in n.eps && 0 <= i < j < |n.eps[p].history|
          && n.eps[p].history[i].Delivered? && n.eps[p].history[i].msg.Health() && n.eps[p].history[j].Sent?
          && x in n.sent && x.Counter() <= Lookup(n.eps[p].history[i].msg.vector, x.source)
        ensures Before(n, p, j, x)
      {
        ClaimIsBeforeSend(n, p, i, j, x);
      }
    }
  }
}
