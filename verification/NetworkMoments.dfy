/** Two more things that every run of a network keeps, health traffic included. Both speak of the moments
    at which messages were sent and delivered, not only of what is known in the end. */
module NetworkMoments {
  import opened VectorClocks
  import opened DeliveryChains
  import opened Endpoints
  import opened Networks

  /** What is delivered at `p` claims no more of `p` than `p` had counted by then. */
  ghost predicate OwnFirst(p: Actor, h: seq<Event>) {
    forall j | 0 <= j < |h| && h[j].Delivered? ::
      Lookup(h[j].msg.vector, p) <= Lookup(After(Start(p), Messages(h)[..j]), p)
  }

  /** `m1` was sent before `m2`. */
  ghost predicate Precedes(sent: seq<Message>, m1: Message, m2: Message) {
    exists x, y :: 0 <= x < y < |sent| && sent[x] == m1 && sent[y] == m2
  }

  /** What an endpoint had sent or delivered before one of its sends was sent before it. */
  ghost predicate SentInOrder(sent: seq<Message>, h: seq<Event>) {
    forall i, j | 0 <= i < j < |h| && h[j].Sent? :: Precedes(sent, h[i].msg, h[j].msg)
  }

  ghost predicate Moments(n: Net) {
    forall p | p in n.eps :: OwnFirst(p, n.eps[p].history) && SentInOrder(n.sent, n.eps[p].history)
  }

  // ------------------------------------------------------------------
  // Receiving
  // ------------------------------------------------------------------

  lemma OwnFirstExtends(p: Actor, h: seq<Event>, out: seq<Message>)
    requires OwnFirst(p, h)
    requires forall x | x in out :: Lookup(x.vector, p) <= Lookup(After(Start(p), Messages(h)), p)
    ensures OwnFirst(p, h + Deliveries(out))
  {
    var g := h + Deliveries(out);
    MessagesAppend(h, Deliveries(out));
    forall j | 0 <= j < |g| && g[j].Delivered?
      ensures Lookup(g[j].msg.vector, p) <= Lookup(After(Start(p), Messages(g)[..j]), p)
    {
      if j < |h| {
        assert Messages(g)[..j] == Messages(h)[..j];
      } else {
        assert g[j].msg in out;
        assert Messages(g)[..|h|] == Messages(h);
        PrefixGrows(Start(p), Messages(g), |h|, j);
        BelowAt(After(Start(p), Messages(h)), After(Start(p), Messages(g)[..j]), p);
      }
    }
  }

  lemma OrderExtends(sent: seq<Message>, h: seq<Event>, out: seq<Message>)
    requires SentInOrder(sent, h)
    ensures SentInOrder(sent, h + Deliveries(out))
  {
    hide Precedes;
  }

  lemma OutIsBounded(n: Net, p: Actor, m: Message, out: seq<Message>)
    requires NetSound(n) && p in n.eps && m in n.sent
    requires multiset(out) <= multiset(n.eps[p].held + [m])
    ensures forall x | x in out :: Lookup(x.vector, p) <= Lookup(n.eps[p].clock, p)
  {
    hide Sound, Recorded, Omniscient, Totals, Below;
    ReceivedWasSent(n, p, m, out);
    OwnTotal(n, p);
    forall x | x in out
      ensures Lookup(x.vector, p) <= Lookup(n.eps[p].clock, p)
    {
      BelowAt(x.vector, Totals(n), p);
    }
  }

  lemma ReceiveMoments(n: Net, p: Actor, m: Message)
    requires NetSound(n) && Moments(n) && p in n.eps && m in n.sent
    ensures Moments(Apply(n, NetReceive(p, m)))
  {
    hide OwnFirst, SentInOrder, Receive, Authentic, Recorded, Bounded, Omniscient, Chain, Stamped;
    var e := n.eps[p];
    assert Sound(e) && e.actor == p;
    var out := ReceiveEffect(e, m);
    OutIsBounded(n, p, m, out);
    OwnFirstExtends(p, e.history, out);
    OrderExtends(n.sent, e.history, out);
  }

  // ------------------------------------------------------------------
  // Sending
  // ------------------------------------------------------------------

  lemma OwnFirstAfterSend(p: Actor, h: seq<Event>, m: Message)
    requires OwnFirst(p, h)
    ensures OwnFirst(p, h + [Sent(m)])
  {
    var g := h + [Sent(m)];
    forall j | 0 <= j < |g| && g[j].Delivered?
      ensures Lookup(g[j].msg.vector, p) <= Lookup(After(Start(p), Messages(g)[..j]), p)
    {
      assert g[j] == h[j];
      assert Messages(g)[..j] == Messages(h)[..j];
    }
  }

  lemma PrecedesExtends(sent: seq<Message>, m: Message, m1: Message, m2: Message)
    requires Precedes(sent, m1, m2)
    ensures Precedes(sent + [m], m1, m2)
  {
    var x, y :| 0 <= x < y < |sent| && sent[x] == m1 && sent[y] == m2;
    assert (sent + [m])[x] == m1 && (sent + [m])[y] == m2;
  }

  lemma PrecedesNewest(sent: seq<Message>, m: Message, m1: Message)
    requires m1 in sent
    ensures Precedes(sent + [m], m1, m)
  {
    var x :| 0 <= x < |sent| && sent[x] == m1;
    assert (sent + [m])[x] == m1 && (sent + [m])[|sent|] == m;
  }

  lemma OrderAfterOtherSend(sent: seq<Message>, h: seq<Event>, m: Message)
    requires SentInOrder(sent, h)
    ensures SentInOrder(sent + [m], h)
  {
    hide Precedes;
    forall i, j | 0 <= i < j < |h| && h[j].Sent?
      ensures Precedes(sent + [m], h[i].msg, h[j].msg)
    {
      PrecedesExtends(sent, m, h[i].msg, h[j].msg);
    }
  }

  lemma OrderAfterSend(sent: seq<Message>, h: seq<Event>, m: Message)
    requires SentInOrder(sent, h) && forall ev | ev in h :: ev.msg in sent
    ensures SentInOrder(sent + [m], h + [Sent(m)])
  {
    hide Precedes;
    var g := h + [Sent(m)];
    forall i, j | 0 <= i < j < |g| && g[j].Sent?
      ensures Precedes(sent + [m], g[i].msg, g[j].msg)
    {
      assert g[i] == h[i] && h[i] in h;
      if j < |h| {
        PrecedesExtends(sent, m, h[i].msg, h[j].msg);
      } else {
        PrecedesNewest(sent, m, h[i].msg);
      }
    }
  }

  lemma SendMoments(n: Net, p: Actor, kind: string, id: string)
    requires NetSound(n) && Moments(n) && p in n.eps
    ensures Moments(Apply(n, NetSend(p, kind, id)))
  {
    hide OwnFirst, SentInOrder, Outbound, Placed, Recorded, Bounded, Omniscient;
    var n', m := Apply(n, NetSend(p, kind, id)), Outbound(n.eps[p], kind, id);
    forall q | q in n'.eps
      ensures OwnFirst(q, n'.eps[q].history) && SentInOrder(n'.sent, n'.eps[q].history)
    {
      if q == p {
        OwnFirstAfterSend(p, n.eps[p].history, m);
        OrderAfterSend(n.sent, n.eps[p].history, m);
      } else {
        OrderAfterOtherSend(n.sent, n.eps[q].history, m);
      }
    }
  }

  lemma {:induction false} RunMoments(n: Net, run: seq<Action>)
    requires NetSound(n) && Moments(n) && ValidRun(n, run)
    ensures NetSound(Run(n, run)) && Moments(Run(n, run))
    decreases |run|
  {
    hide NetSound, Moments;
    if run != [] {
      ApplySound(n, run[0]);
      match run[0] {
        case NetSend(p, kind, id) => SendMoments(n, p, kind, id);
        case NetReceive(p, m) => ReceiveMoments(n, p, m);
      }
      RunMoments(Apply(n, run[0]), run[1..]);
    }
  }

  /** Everything known of every reachable state. */
  ghost predicate Reached(n: Net) {
    NetSound(n) && Moments(n)
  }

  lemma ReachedByRun(actors: set<Actor>, run: seq<Action>)
    requires ValidRun(Boot(actors), run)
    ensures Reached(Run(Boot(actors), run)) && Run(Boot(actors), run).eps.Keys == actors
  {
    hide NetSound;
    ReachableSound(actors, run);
    BootSound(actors);
    assert Moments(Boot(actors));
    RunMoments(Boot(actors), run);
  }
}
