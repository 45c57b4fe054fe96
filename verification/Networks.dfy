/** Endpoints joined by a network that may delay, reorder, duplicate and lose messages.
    `send` and `receive` are atomic steps, since both hold the endpoint's lock
    (causal_broadcast.py:66 and :86). */
module Networks {
  import opened VectorClocks
  import opened DeliveryChains
  import opened Endpoints

  /** `sent` lists every message ever sent, in the order of sending; none is ever taken out of it, so
      any of them may reach anyone, its own sender included, at any time, any number of times, or never. */
  datatype Net = Net(eps: map<Actor, Endpoint>, sent: seq<Message>)

  datatype Action =
    | NetSend(p: Actor, kind: string, id: string)
    | NetReceive(p: Actor, msg: Message)

  function Boot(actors: set<Actor>): Net {
    Net(map p | p in actors :: Create(p), [])
  }

  predicate Enabled(n: Net, act: Action) {
    act.p in n.eps && (act.NetReceive? ==> act.msg in n.sent)
  }

  function Apply(n: Net, act: Action): (n': Net)
    requires Enabled(n, act)
    ensures n'.eps.Keys == n.eps.Keys
  {
    match act
    case NetSend(p, kind, id) =>
      Net(n.eps[p := Send(n.eps[p], kind, id)], n.sent + [Outbound(n.eps[p], kind, id)])
    case NetReceive(p, m) =>
      n.(eps := n.eps[p := Receive(n.eps[p], m)])
  }

  predicate ValidRun(n: Net, run: seq<Action>)
    decreases |run|
  {
    run == [] || (Enabled(n, run[0]) && ValidRun(Apply(n, run[0]), run[1..]))
  }

  function Run(n: Net, run: seq<Action>): (n': Net)
    requires ValidRun(n, run)
    ensures n'.eps.Keys == n.eps.Keys
    decreases |run|
  {
    if run == [] then n else Run(Apply(n, run[0]), run[1..])
  }

  /** A run in which nobody sends a health message. */
  ghost predicate CausalRun(actors: set<Actor>, run: seq<Action>) {
    ValidRun(Boot(actors), run) && HealthFree(Run(Boot(actors), run).sent)
  }

  /** What each actor itself has counted: nothing can be known of an actor beyond this. */
  function Totals(n: Net): Clock {
    map a | a in n.eps :: Lookup(n.eps[a].clock, a)
  }

  // ------------------------------------------------------------------
  // The invariant of every run, health traffic included
  // ------------------------------------------------------------------

  ghost predicate Placed(n: Net) {
    forall p | p in n.eps :: n.eps[p].actor == p && Sound(n.eps[p])
  }

  /** Only what was sent arrives, and only what was sent is in anyone's history. */
  ghost predicate Authentic(n: Net) {
    && (forall p, m | p in n.eps && m in n.eps[p].arrived :: m in n.sent)
    && (forall p, ev | p in n.eps && ev in n.eps[p].history :: ev.msg in n.sent)
  }

  /** Every message in the network is recorded at its sender. */
  ghost predicate Recorded(n: Net) {
    forall m | m in n.sent :: m.source in n.eps && Sent(m) in n.eps[m.source].history
  }

  /** No endpoint and no message knows more of an actor than the actor itself. */
  ghost predicate Bounded(n: Net) {
    && (forall p | p in n.eps :: Below(n.eps[p].clock, Totals(n)))
    && (forall m | m in n.sent :: Below(m.vector, Totals(n)))
  }

  /** The order in which the whole network sends is itself a legal order of delivery, and it accounts
      for every actor's own counter. */
  ghost predicate Omniscient(n: Net) {
    CausalChain(map[], n.sent) && SameKnowledge(After(map[], n.sent), Totals(n))
  }

  ghost predicate NetSound(n: Net) {
    Placed(n) && Authentic(n) && Recorded(n) && Bounded(n) && Omniscient(n)
  }

  lemma BootSound(actors: set<Actor>)
    ensures NetSound(Boot(actors))
  {
  }

  lemma {:induction false} AfterStaysBelow(c: Clock, ms: seq<Message>, cap: Clock)
    requires Below(c, cap) && forall m | m in ms :: Below(m.vector, cap)
    ensures Below(After(c, ms), cap)
    decreases |ms|
  {
    if ms != [] {
      var m := ms[0];
      assert Lookup(m.vector, m.source) <= Lookup(cap, m.source);
      forall a
        ensures Lookup(Advance(c, m), a) <= Lookup(cap, a)
      {
        AdvanceLookup(c, m, a);
      }
      AfterStaysBelow(Advance(c, m), ms[1..], cap);
    }
  }

  /** What is delivered by a receive was sent by someone. */
  lemma ReceivedWasSent(n: Net, p: Actor, m: Message, out: seq<Message>)
    requires Placed(n) && Authentic(n) && p in n.eps && m in n.sent
    requires var e := n.eps[p]; multiset(out) <= multiset(e.held + [m])
    ensures forall x | x in out :: x in n.sent
  {
    var e := n.eps[p];
    forall x | x in out
      ensures x in n.sent
    {
      assert x in multiset(out);
      assert x in multiset(e.held + [m]);
      assert x in e.held + [m];
      if x in e.held {
        assert x in multiset(e.held);
        assert x in multiset(e.arrived);
      }
    }
  }

  /** Receiving raises entries only, never beyond what their actors counted, and never one's own. */
  lemma ReceiveBounded(n: Net, p: Actor, m: Message)
    requires NetSound(n) && p in n.eps && m in n.sent
    ensures var e, f := n.eps[p], Receive(n.eps[p], m);
            && Below(e.clock, f.clock) && Below(f.clock, Totals(n))
            && Lookup(f.clock, p) == Lookup(e.clock, p)
            && f.actor == p && f.arrived == e.arrived + [m] && e.history <= f.history
            && forall ev | ev in f.history :: ev.msg in n.sent
  {
    var e, f := n.eps[p], Receive(n.eps[p], m);
    var out := ReceiveEffect(e, m);
    ReceivedWasSent(n, p, m, out);
    AfterStaysBelow(e.clock, out, Totals(n));
    AfterGrows(e.clock, out);
    HistoryWasSent(n, e.history, out);
    BelowAt(e.clock, f.clock, p);
    BelowAt(f.clock, Totals(n), p);
  }

  lemma HistoryWasSent(n: Net, h: seq<Event>, out: seq<Message>)
    requires forall ev | ev in h :: ev.msg in n.sent
    requires forall x | x in out :: x in n.sent
    ensures forall ev | ev in h + Deliveries(out) :: ev.msg in n.sent
  {
  }

  lemma ReceiveTotals(n: Net, p: Actor, m: Message)
    requires NetSound(n) && p in n.eps && m in n.sent
    ensures Totals(Apply(n, NetReceive(p, m))) == Totals(n)
  {
    hide Sound, Receive;
    ReceiveBounded(n, p, m);
  }

  lemma ReceiveHistories(n: Net, p: Actor, m: Message)
    requires NetSound(n) && p in n.eps && m in n.sent
    ensures Authentic(Apply(n, NetReceive(p, m))) && Recorded(Apply(n, NetReceive(p, m)))
  {
    hide Sound, Receive, Bounded, Omniscient;
    ReceiveBounded(n, p, m);
    var n' := Apply(n, NetReceive(p, m));
    assert forall ev | ev in n.eps[p].history :: ev in n'.eps[p].history;
    assert forall x | x in n'.eps[p].arrived :: x in n.eps[p].arrived || x == m;
  }

  lemma ReceiveNetSound(n: Net, p: Actor, m: Message)
    requires NetSound(n) && p in n.eps && m in n.sent
    ensures NetSound(Apply(n, NetReceive(p, m)))
  {
    hide Sound, Receive, Below, Recorded, Authentic;
    ReceiveTotals(n, p, m);
    ReceiveHistories(n, p, m);
    ReceiveBounded(n, p, m);
    ReceiveSound(n.eps[p], m);
  }

  lemma TotalsAfterSend(n: Net, p: Actor, kind: string, id: string)
    requires Placed(n) && p in n.eps
    ensures var n' := Apply(n, NetSend(p, kind, id));
            Totals(n') == Totals(n)[p := Lookup(n.eps[p].clock, p) + 1]
  {
    hide Sound;
  }

  lemma SendOmniscient(n: Net, p: Actor, kind: string, id: string)
    requires NetSound(n) && p in n.eps
    ensures Omniscient(Apply(n, NetSend(p, kind, id)))
  {
    hide Sound;
    var n', m := Apply(n, NetSend(p, kind, id)), Outbound(n.eps[p], kind, id);
    var c := After(map[], n.sent);
    TotalsAfterSend(n, p, kind, id);
    forall a | a in m.vector && a != p
      ensures m.vector[a] <= Lookup(c, a)
    {
      assert Lookup(n.eps[p].clock, a) <= Lookup(Totals(n), a);
    }
    assert Deliverable(c, m);
    CausalChainAppend(map[], n.sent, [m]);
    AfterAppend(map[], n.sent, [m]);
    forall a
      ensures Lookup(After(map[], n'.sent), a) == Lookup(Totals(n'), a)
    {
      AdvanceLookup(c, m, a);
    }
  }

  /** A send raises one total, its sender's, to the counter that its message carries. */
  lemma SendRaisesTotals(n: Net, p: Actor, kind: string, id: string)
    requires Placed(n) && Bounded(n) && p in n.eps
    ensures var n', m := Apply(n, NetSend(p, kind, id)), Outbound(n.eps[p], kind, id);
            && Below(Totals(n), Totals(n')) && Below(m.vector, Totals(n'))
            && m.vector == Send(n.eps[p], kind, id).clock
  {
    hide Sound, Totals;
    var n', m := Apply(n, NetSend(p, kind, id)), Outbound(n.eps[p], kind, id);
    TotalsAfterSend(n, p, kind, id);
    assert Lookup(Totals(n), p) == Lookup(n.eps[p].clock, p) by {
      OwnTotal(n, p);
    }
    forall a
      ensures Lookup(Totals(n), a) <= Lookup(Totals(n'), a)
      ensures Lookup(m.vector, a) <= Lookup(Totals(n'), a)
    {
      BelowAt(n.eps[p].clock, Totals(n), a);
    }
  }

  lemma OwnTotal(n: Net, p: Actor)
    requires p in n.eps
    ensures Lookup(Totals(n), p) == Lookup(n.eps[p].clock, p)
  {
  }

  lemma SentStaysBounded(n: Net, m: Message, top: Clock, cap: Clock)
    requires forall x | x in n.sent :: Below(x.vector, top)
    requires Below(top, cap) && Below(m.vector, cap)
    ensures forall x | x in n.sent + [m] :: Below(x.vector, cap)
  {
    hide Below;
    forall x | x in n.sent + [m]
      ensures Below(x.vector, cap)
    {
      if x in n.sent {
        BelowTransitive(x.vector, top, cap);
      }
    }
  }

  lemma ClocksStayBounded(n: Net, n': Net, p: Actor, e: Endpoint, cap: Clock)
    requires n'.eps == n.eps[p := e]
    requires forall q | q in n.eps :: Below(n.eps[q].clock, Totals(n))
    requires Below(Totals(n), cap) && Below(e.clock, cap)
    ensures forall q | q in n'.eps :: Below(n'.eps[q].clock, cap)
  {
    hide Below, Totals;
    forall q | q in n'.eps
      ensures Below(n'.eps[q].clock, cap)
    {
      if q != p {
        BelowTransitive(n.eps[q].clock, Totals(n), cap);
      }
    }
  }

  lemma SendBounded(n: Net, p: Actor, kind: string, id: string)
    requires NetSound(n) && p in n.eps
    ensures Bounded(Apply(n, NetSend(p, kind, id)))
    ensures Below(Totals(n), Totals(Apply(n, NetSend(p, kind, id))))
  {
    hide Sound, Below, Totals, Authentic, Recorded, Omniscient, Outbound, Send;
    var n', m := Apply(n, NetSend(p, kind, id)), Outbound(n.eps[p], kind, id);
    SendRaisesTotals(n, p, kind, id);
    SentStaysBounded(n, m, Totals(n), Totals(n'));
    ClocksStayBounded(n, n', p, Send(n.eps[p], kind, id), Totals(n'));
  }

  lemma SendHistories(n: Net, p: Actor, kind: string, id: string)
    requires NetSound(n) && p in n.eps
    ensures Authentic(Apply(n, NetSend(p, kind, id))) && Recorded(Apply(n, NetSend(p, kind, id)))
  {
    hide Sound, Bounded, Omniscient;
    var n', m := Apply(n, NetSend(p, kind, id)), Outbound(n.eps[p], kind, id);
    assert m in n'.sent;
    assert forall x | x in n.sent :: x in n'.sent;
    assert n'.eps[p].history == n.eps[p].history + [Sent(m)];
    assert forall ev | ev in n.eps[p].history :: ev in n'.eps[p].history;
    assert Sent(m) in n'.eps[p].history;
  }

  lemma SendNetSound(n: Net, p: Actor, kind: string, id: string)
    requires NetSound(n) && p in n.eps
    ensures NetSound(Apply(n, NetSend(p, kind, id)))
  {
    hide Sound, Bounded, Omniscient, Authentic, Recorded, Totals;
    SendSound(n.eps[p], kind, id);
    SendBounded(n, p, kind, id);
    SendOmniscient(n, p, kind, id);
    SendHistories(n, p, kind, id);
  }

  lemma ApplySound(n: Net, act: Action)
    requires NetSound(n) && Enabled(n, act)
    ensures NetSound(Apply(n, act))
    ensures Below(Totals(n), Totals(Apply(n, act)))
    ensures forall p | p in n.eps :: p in Apply(n, act).eps && Below(n.eps[p].clock, Apply(n, act).eps[p].clock)
  {
    hide NetSound, Totals, Below, Send, Outbound, Receive;
    match act {
      case NetSend(p, kind, id) =>
        SendNetSound(n, p, kind, id);
        SendRaises(n, p, kind, id);
      case NetReceive(p, m) =>
        ReceiveNetSound(n, p, m);
        ReceiveTotals(n, p, m);
        ReceiveRaises(n, p, m);
    }
    forall q | q in n.eps
      ensures Below(n.eps[q].clock, Apply(n, act).eps[q].clock)
    {
      BelowSelf(n.eps[q].clock);
    }
  }

  lemma BelowSelf(v: Vector)
    ensures Below(v, v)
  {
  }

  lemma SendRaises(n: Net, p: Actor, kind: string, id: string)
    requires NetSound(n) && p in n.eps
    ensures Below(Totals(n), Totals(Apply(n, NetSend(p, kind, id))))
    ensures Below(n.eps[p].clock, Send(n.eps[p], kind, id).clock)
  {
    hide Sound, Totals, Authentic, Recorded, Omniscient;
    SendRaisesTotals(n, p, kind, id);
  }

  lemma ReceiveRaises(n: Net, p: Actor, m: Message)
    requires NetSound(n) && p in n.eps && m in n.sent
    ensures Below(Totals(n), Totals(n)) && Below(n.eps[p].clock, Receive(n.eps[p], m).clock)
  {
    hide NetSound, Totals, Receive;
    ReceiveBounded(n, p, m);
  }

  lemma {:induction false} RunNetSound(n: Net, run: seq<Action>)
    requires NetSound(n) && ValidRun(n, run)
    ensures NetSound(Run(n, run))
    decreases |run|
  {
    hide Sound;
    if run != [] {
      ApplySound(n, run[0]);
      RunNetSound(Apply(n, run[0]), run[1..]);
    }
  }

  lemma HeldWasSent(n: Net, p: Actor, m: Message)
    requires Placed(n) && Authentic(n) && p in n.eps && m in n.eps[p].held
    ensures m in n.sent
  {
    hide Conserved;
    HeldArrived(n.eps[p], m);
  }

  // ------------------------------------------------------------------
  // Theorems over runs
  // ------------------------------------------------------------------

  lemma ReachableSound(actors: set<Actor>, run: seq<Action>)
    requires ValidRun(Boot(actors), run)
    ensures NetSound(Run(Boot(actors), run)) && Run(Boot(actors), run).eps.Keys == actors
  {
    hide NetSound;
    BootSound(actors);
    RunNetSound(Boot(actors), run);
  }

  lemma NothingBeyond(n: Net, p: Actor, q: Actor)
    requires NetSound(n) && p in n.eps && q in n.eps
    ensures Lookup(n.eps[p].clock, q) <= Lookup(n.eps[q].clock, q)
    ensures forall m | m in n.sent :: Lookup(m.vector, q) <= Lookup(n.eps[q].clock, q)
    ensures forall m | m in n.eps[p].held :: m in n.sent
  {
    hide Sound, Recorded, Omniscient, Totals, Below;
    OwnTotal(n, q);
    BelowAt(n.eps[p].clock, Totals(n), q);
    forall m | m in n.sent
      ensures Lookup(m.vector, q) <= Lookup(n.eps[q].clock, q)
    {
      BelowAt(m.vector, Totals(n), q);
    }
    forall m | m in n.eps[p].held
      ensures m in n.sent
    {
      HeldWasSent(n, p, m);
    }
  }

  /** Global knowledge bound, health traffic included: in every reachable state nobody's clock and no
      message in flight or held knows more of an actor than that actor has counted itself. */
  lemma KnowledgeBound(actors: set<Actor>, run: seq<Action>, p: Actor, q: Actor)
    requires ValidRun(Boot(actors), run) && p in actors && q in actors
    ensures var n := Run(Boot(actors), run);
            && n.eps.Keys == actors
            && Lookup(n.eps[p].clock, q) <= Lookup(n.eps[q].clock, q)
            && (forall m | m in n.sent :: Lookup(m.vector, q) <= Lookup(n.eps[q].clock, q))
            && (forall m | m in n.eps[p].held :: m in n.sent)
  {
    hide NetSound;
    ReachableSound(actors, run);
    NothingBeyond(Run(Boot(actors), run), p, q);
  }

  /** Along every run clocks never decrease, and a receive never changes the receiver's own entry. */
  lemma {:induction false} ClocksGrow(n: Net, run: seq<Action>, p: Actor)
    requires NetSound(n) && ValidRun(n, run) && p in n.eps
    ensures p in Run(n, run).eps && Below(n.eps[p].clock, Run(n, run).eps[p].clock)
    ensures (forall act | act in run :: act.NetReceive?) ==>
              Lookup(Run(n, run).eps[p].clock, p) == Lookup(n.eps[p].clock, p)
    decreases |run|
  {
    if run != [] {
      var n' := Apply(n, run[0]);
      ApplySound(n, run[0]);
      ClocksGrow(n', run[1..], p);
      if run[0].NetReceive? {
        ReceiveTotals(n, run[0].p, run[0].msg);
        assert Lookup(Totals(n'), p) == Lookup(n'.eps[p].clock, p);
        assert Lookup(Totals(n), p) == Lookup(n.eps[p].clock, p);
      } else {
        assert run[0] in run;
      }
      forall a
        ensures Lookup(n.eps[p].clock, a) <= Lookup(Run(n, run).eps[p].clock, a)
      {
        assert Lookup(n.eps[p].clock, a) <= Lookup(n'.eps[p].clock, a);
      }
    }
  }
}
