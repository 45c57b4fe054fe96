/** Where the causal guarantees end: health messages take a sender's counter, skip the test and jump the
    clock (causal_broadcast.py:87-90). */
module HealthBoundary {
  import opened VectorClocks
  import opened DeliveryChains
  import opened Endpoints
  import opened EndpointRuns
  import opened Networks
  import Confluence
  import CausalOrder

  /** The first half of the skipped test, at the moment a health message from another actor came in. */
  ghost predicate HealthInTurn(e: Endpoint) {
    forall i | 0 <= i < |e.history| && e.history[i].msg.Health() && e.history[i].msg.source != e.actor ::
      e.history[i].msg.Counter() == Lookup(After(Start(e.actor), Messages(e.history)[..i]), e.history[i].msg.source) + 1
  }

  /** Every message from `s` takes the next number. */
  ghost predicate InTurn(c: Clock, ms: seq<Message>, s: Actor) {
    forall i | 0 <= i < |ms| && ms[i].source == s :: ms[i].Counter() == Lookup(After(c, ms[..i]), s) + 1
  }

  lemma InTurnTail(c: Clock, ms: seq<Message>, s: Actor)
    requires ms != []
    ensures InTurn(c, ms, s) <==>
            (ms[0].source == s ==> ms[0].Counter() == Lookup(c, s) + 1) && InTurn(Advance(c, ms[0]), ms[1..], s)
  {
    var d, rest := Advance(c, ms[0]), ms[1..];
    assert ms[..0] == [];
    forall i | 0 <= i < |rest|
      ensures After(c, ms[..i + 1]) == After(d, rest[..i]) && ms[i + 1] == rest[i]
    {
      assert ms[..i + 1] == [ms[0]] + rest[..i];
      assert ms[..i + 1][1..] == rest[..i];
    }
    if InTurn(c, ms, s) {
      forall i | 0 <= i < |rest| && rest[i].source == s
        ensures rest[i].Counter() == Lookup(After(d, rest[..i]), s) + 1
      {
        assert ms[i + 1].source == s;
      }
    }
    if (ms[0].source == s ==> ms[0].Counter() == Lookup(c, s) + 1) && InTurn(d, rest, s) {
      forall i | 0 <= i < |ms| && ms[i].source == s
        ensures ms[i].Counter() == Lookup(After(c, ms[..i]), s) + 1
      {
        if i > 0 {
          assert rest[i - 1].source == s;
        }
      }
    }
  }

  lemma NothingInTurn(c: Clock, s: Actor)
    ensures InTurn(c, [], s)
  {
  }

  /** `cs` counts on from `b`. */
  ghost predicate CountsFrom(cs: seq<int>, b: int) {
    forall k | 0 <= k < |cs| :: cs[k] == b + 1 + k
  }

  lemma CountsFromCons(x: int, cs: seq<int>, b: int)
    ensures CountsFrom([x] + cs, b) <==> x == b + 1 && CountsFrom(cs, b + 1)
  {
    if CountsFrom([x] + cs, b) {
      assert ([x] + cs)[0] == x;
      forall k | 0 <= k < |cs|
        ensures cs[k] == b + 2 + k
      {
        assert ([x] + cs)[k + 1] == cs[k];
      }
    }
  }

  /** Counters are consecutive exactly when each came in its turn. */
  lemma {:induction false} ConsecutiveIffInTurn(c: Clock, ms: seq<Message>, s: Actor)
    ensures InTurn(c, ms, s) <==> CountsFrom(Counters(ms, s), Lookup(c, s))
    ensures InTurn(c, ms, s) ==> |Counters(ms, s)| == Lookup(After(c, ms), s) - Lookup(c, s)
    decreases |ms|
  {
    hide InTurn, CountsFrom;
    if ms == [] {
      NothingInTurn(c, s);
      assert CountsFrom([], Lookup(c, s)) by {
        NothingCounts(Lookup(c, s));
      }
    } else {
      var d, rest := Advance(c, ms[0]), ms[1..];
      InTurnTail(c, ms, s);
      AdvanceLookup(c, ms[0], s);
      ConsecutiveIffInTurn(d, rest, s);
      if ms[0].source == s {
        CountsFromCons(ms[0].Counter(), Counters(rest, s), Lookup(c, s));
      } else {
        assert Counters(ms, s) == Counters(rest, s);
      }
    }
  }

  lemma NothingCounts(b: int)
    ensures CountsFrom([], b)
  {
  }

  lemma InTurnFromAnother(e: Endpoint, s: Actor)
    requires Sound(e) && s != e.actor
    ensures InTurn(Start(e.actor), Messages(e.history), s) <==>
            forall i | 0 <= i < |e.history| && e.history[i].msg.Health() && e.history[i].msg.source == s ::
              e.history[i].msg.Counter() == Lookup(After(Start(e.actor), Messages(e.history)[..i]), s) + 1
  {
    var ms := Messages(e.history);
    forall i | 0 <= i < |ms| && ms[i].source == s && !ms[i].Health()
      ensures ms[i].Counter() == Lookup(After(Start(e.actor), ms[..i]), s) + 1
    {
      EventReady(e, i);
    }
  }

  /** In any run whatever, what was delivered from the other actors is free of gaps and repeats exactly
      when every health message from another actor came in its turn. */
  lemma GapFreeIffHealthInTurn(actor: Actor, ops: seq<Op>)
    ensures var e := RunOf(actor, ops);
            (forall s | s != actor :: GapFree(e, s)) <==> HealthInTurn(e)
  {
    var e := RunOf(actor, ops);
    RunSound(actor, ops);
    var ms := Messages(e.history);
    forall s | s != actor
      ensures GapFree(e, s) <==> InTurn(Start(actor), ms, s)
    {
      CountersOfLog(e.history, s);
      ConsecutiveIffInTurn(Start(actor), ms, s);
    }
    forall s | s != actor
      ensures InTurn(Start(actor), ms, s) <==>
              forall i | 0 <= i < |e.history| && e.history[i].msg.Health() && e.history[i].msg.source == s ::
                e.history[i].msg.Counter() == Lookup(After(Start(actor), ms[..i]), s) + 1
    {
      InTurnFromAnother(e, s);
    }
    if forall s | s != actor :: GapFree(e, s) {
      forall i | 0 <= i < |e.history| && e.history[i].msg.Health() && e.history[i].msg.source != actor
        ensures e.history[i].msg.Counter() == Lookup(After(Start(actor), ms[..i]), e.history[i].msg.source) + 1
      {
        assert GapFree(e, e.history[i].msg.source);
      }
    }
  }

  // ------------------------------------------------------------------
  // Runs in which health traffic breaks what holds without it
  // ------------------------------------------------------------------

  lemma RunStep(n: Net, act: Action, rest: seq<Action>)
    requires Enabled(n, act) && ValidRun(Apply(n, act), rest)
    ensures ValidRun(n, [act] + rest) && Run(n, [act] + rest) == Run(Apply(n, act), rest)
  {
  }

  /** The final state of a run of four actions. */
  lemma FourSteps(n: Net, a1: Action, a2: Action, a3: Action, a4: Action)
    requires Enabled(n, a1) && Enabled(Apply(n, a1), a2) && Enabled(Apply(Apply(n, a1), a2), a3)
    requires Enabled(Apply(Apply(Apply(n, a1), a2), a3), a4)
    ensures ValidRun(n, [a1, a2, a3, a4])
    ensures Run(n, [a1, a2, a3, a4]) == Apply(Apply(Apply(Apply(n, a1), a2), a3), a4)
  {
    hide Apply, Enabled;
    var n1 := Apply(n, a1);
    var n2 := Apply(n1, a2);
    var n3 := Apply(n2, a3);
    RunStep(n3, a4, []);
    RunStep(n2, a3, [a4]);
    RunStep(n1, a2, [a3, a4]);
    RunStep(n, a1, [a2, a3, a4]);
    assert [a4] + [] == [a4];
    assert [a3] + [a4] == [a3, a4];
    assert [a2] + [a3, a4] == [a2, a3, a4];
    assert [a1] + [a2, a3, a4] == [a1, a2, a3, a4];
  }

  lemma BootAt(actors: set<Actor>, p: Actor)
    requires p in actors
    ensures p in Boot(actors).eps && Boot(actors).eps[p] == Create(p) && Boot(actors).sent == []
  {
  }

  lemma SendAt(n: Net, p: Actor, kind: string, id: string)
    requires p in n.eps
    ensures var n' := Apply(n, NetSend(p, kind, id));
            && n'.eps[p] == Send(n.eps[p], kind, id) && n'.sent == n.sent + [Outbound(n.eps[p], kind, id)]
            && forall q | q in n.eps && q != p :: n'.eps[q] == n.eps[q]
  {
  }

  lemma ReceiveAt(n: Net, p: Actor, m: Message)
    requires p in n.eps && m in n.sent
    ensures var n' := Apply(n, NetReceive(p, m));
            && n'.eps[p] == Receive(n.eps[p], m) && n'.sent == n.sent
            && forall q | q in n.eps && q != p :: n'.eps[q] == n.eps[q]
  {
  }

  /** `a` sends two messages and `b` receives them in the wrong order. */
  lemma Swapped(a: Actor, b: Actor, kind1: string, id1: string, kind2: string, id2: string)
    returns (x: Message, y: Message, run: seq<Action>)
    requires a != b
    ensures x == Message(id1, a, kind1, map[a := 1]) && y == Message(id2, a, kind2, map[a := 2])
    ensures ValidRun(Boot({a, b}), run)
    ensures var n := Run(Boot({a, b}), run);
            n.sent == [x, y] && b in n.eps && n.eps[b] == Receive(Receive(Create(b), y), x)
  {
    hide Run, ValidRun, Receive, Apply, Boot, Send, Outbound, Create;
    FirstTwo(a, kind1, id1, kind2, id2);
    x := Outbound(Create(a), kind1, id1);
    y := Outbound(Send(Create(a), kind1, id1), kind2, id2);
    var act1, act2, act3, act4 := NetSend(a, kind1, id1), NetSend(a, kind2, id2), NetReceive(b, y), NetReceive(b, x);
    run := [act1, act2, act3, act4];
    var n0 := Boot({a, b});
    BootAt({a, b}, a);
    BootAt({a, b}, b);
    SendAt(n0, a, kind1, id1);
    var n1 := Apply(n0, act1);
    SendAt(n1, a, kind2, id2);
    var n2 := Apply(n1, act2);
    ReceiveAt(n2, b, y);
    ReceiveAt(Apply(n2, act3), b, x);
    FourSteps(n0, act1, act2, act3, act4);
  }

  /** The first two messages an endpoint sends. */
  lemma FirstTwo(a: Actor, kind1: string, id1: string, kind2: string, id2: string)
    ensures Outbound(Create(a), kind1, id1) == Message(id1, a, kind1, map[a := 1])
    ensures Outbound(Send(Create(a), kind1, id1), kind2, id2) == Message(id2, a, kind2, map[a := 2])
  {
  }

  /** A health message that has come out of turn, as the endpoint sees it. */
  lemma HealthFirst(b: Actor, h: Message)
    requires h.Health()
    ensures var e := Receive(Create(b), h);
            && e.held == [] && Log(e.history) == [h] && e.arrived == [h]
            && e.clock == Advance(Start(b), h)
  {
    assert Receive(Create(b), h).history == [Delivered(h)];
    assert Log([Delivered(h)]) == [h];
  }

  /** Completeness fails: `a` sends a causal message and then a health message; the health message
      reaches `b` first. `b` has then received everything, and never delivers the causal message. */
  lemma HealthStrandsMessage(a: Actor, b: Actor, kind: string, id1: string, id2: string)
    returns (m: Message, run: seq<Action>)
    requires a != b && kind != HEALTH
    ensures ValidRun(Boot({a, b}), run)
    ensures var n := Run(Boot({a, b}), run);
            && m in n.sent && m.source == a && !m.Health()
            && (forall x | x in n.sent :: x in n.eps[b].arrived)
            && m in n.eps[b].held && m !in Log(n.eps[b].history)
            && forall ops :: m !in Log(Exec(n.eps[b], ops).history)
  {
    hide Run, ValidRun, Apply;
    var h;
    m, h, run := Swapped(a, b, kind, id1, HEALTH, id2);
    HealthFirst(b, h);
    Stranded(b, h, m);
  }

  lemma Stranded(b: Actor, h: Message, m: Message)
    requires h.Health() && !m.Health() && m != h && h.source == m.source != b
    requires m.vector == map[m.source := 1] && h.vector == map[m.source := 2]
    ensures var e := Receive(Receive(Create(b), h), m);
            e.arrived == [h, m] && m in e.held && forall ops :: m !in Log(Exec(e, ops).history)
    ensures m !in Log(Receive(Receive(Create(b), h), m).history)
  {
    hide Exec;
    HealthFirst(b, h);
    var e1 := Receive(Create(b), h);
    Confluence.UnreadyIsHeld(e1, m);
    var e2 := Receive(e1, m);
    assert m !in Log(e2.history);
    forall ops
      ensures m !in Log(Exec(e2, ops).history)
    {
      StaleForever(e2, ops, m);
      assert multiset(Log(Exec(e2, ops).history))[m] == 0;
    }
  }

  /** `b` delivers `a`'s message and then sends a health message, which reaches `c` first. */
  lemma Relayed(a: Actor, b: Actor, c: Actor, kind: string, id1: string, id2: string)
    returns (m: Message, h: Message, run: seq<Action>)
    requires a != b && b != c && a != c
    ensures m == Message(id1, a, kind, map[a := 1])
    ensures ValidRun(Boot({a, b, c}), run)
    ensures var n := Run(Boot({a, b, c}), run);
            && b in n.eps && n.eps[b] == Send(Receive(Create(b), m), HEALTH, id2)
            && h == Outbound(Receive(Create(b), m), HEALTH, id2)
            && c in n.eps && n.eps[c] == Receive(Create(c), h)
  {
    hide Run, ValidRun, Receive, Apply, Boot, Send, Outbound, Create;
    FirstTwo(a, kind, id1, kind, id1);
    m := Outbound(Create(a), kind, id1);
    h := Outbound(Receive(Create(b), m), HEALTH, id2);
    var act1, act2, act3, act4 := NetSend(a, kind, id1), NetReceive(b, m), NetSend(b, HEALTH, id2), NetReceive(c, h);
    run := [act1, act2, act3, act4];
    var n0 := Boot({a, b, c});
    BootAt({a, b, c}, a);
    BootAt({a, b, c}, b);
    BootAt({a, b, c}, c);
    SendAt(n0, a, kind, id1);
    var n1 := Apply(n0, act1);
    ReceiveAt(n1, b, m);
    var n2 := Apply(n1, act2);
    SendAt(n2, b, HEALTH, id2);
    ReceiveAt(Apply(n2, act3), c, h);
    FourSteps(n0, act1, act2, act3, act4);
  }

  /** Causal delivery fails: `b` delivers `a`'s message and then sends a health message, which `c`
      delivers without having delivered what it depends on. */
  lemma HealthOvertakesCause(a: Actor, b: Actor, c: Actor, kind: string, id1: string, id2: string)
    returns (m: Message, h: Message, run: seq<Action>)
    requires a != b && b != c && a != c && kind != HEALTH
    ensures ValidRun(Boot({a, b, c}), run)
    ensures var n := Run(Boot({a, b, c}), run);
            && CausalOrder.HappensBefore(n, m, h)
            && Log(n.eps[c].history) == [h] && m != h
  {
    hide Run, ValidRun, Apply;
    m, h, run := Relayed(a, b, c, kind, id1, id2);
    HealthFirst(c, h);
    Confluence.ReadyIsDelivered(Create(b), m);
    SentAfterDelivery(Run(Boot({a, b, c}), run), b, Receive(Create(b), m), m, id2);
  }

  lemma SentAfterDelivery(n: Net, b: Actor, e: Endpoint, m: Message, id: string)
    requires b in n.eps && n.eps[b] == Send(e, HEALTH, id) && e.actor == b && m in Log(e.history)
    ensures CausalOrder.HappensBefore(n, m, Outbound(e, HEALTH, id))
  {
    var h := Outbound(e, HEALTH, id);
    var i := InLogIsEvent(e.history, m);
    var all := n.eps[b].history;
    assert all[i].msg == m && all[|e.history|] == Sent(h);
    CausalOrder.DirectlyHappensBefore(n, m, h);
  }

  /** Quiescence fails though nothing runs ahead: `b` holds a message that waits for the health message
      before it; that one is delivered without a drain, so `b` has received everything and still holds a
      ready message. */
  lemma HealthLeavesReadyMessage(a: Actor, b: Actor, kind: string, id1: string, id2: string)
    returns (m: Message, run: seq<Action>)
    requires a != b && kind != HEALTH
    ensures ValidRun(Boot({a, b}), run)
    ensures var n := Run(Boot({a, b}), run);
            && (forall x | x in n.sent :: x in n.eps[b].arrived)
            && m in n.eps[b].held && Deliverable(n.eps[b].clock, m) && m !in Log(n.eps[b].history)
  {
    hide Run, ValidRun, Apply;
    var h;
    h, m, run := Swapped(a, b, HEALTH, id1, kind, id2);
    LeftReady(b, h, m);
  }

  lemma LeftReady(b: Actor, h: Message, m: Message)
    requires h.Health() && !m.Health() && m != h && h.source == m.source != b
    requires h.vector == map[m.source := 1] && m.vector == map[m.source := 2]
    ensures var e := Receive(Receive(Create(b), m), h);
            && e.arrived == [m, h] && m in e.held && Deliverable(e.clock, m) && m !in Log(e.history)
  {
    Confluence.UnreadyIsHeld(Create(b), m);
    var e1 := Receive(Create(b), m);
    var e2 := Receive(e1, h);
    LogAppend(e1.history, [Delivered(h)]);
    assert Log([Delivered(h)]) == [h];
  }
}
