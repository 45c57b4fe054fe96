/** When a held message can become ready without being delivered. Only a causal arrival drains the queue:
    `send` and the delivery of a health message raise a clock entry and leave the queue alone
    (causal_broadcast.py:66-67 and :87-90). */
module Quiescence {
  import opened VectorClocks
  import opened DeliveryChains
  import opened HoldQueues
  import opened Endpoints
  import opened Networks

  /** At clock `c` the message waits for the entry of `s` alone, and raising that entry to `v` is enough:
      it is the next message of `s` after `v`, or it knows more of `s` than `c` does and no more than `v`. */
  predicate WaitsFor(c: Clock, s: Actor, v: nat, m: Message) {
    && Lookup(c, s) < v
    && (if m.source == s then m.Counter() == v + 1
        else m.Counter() == Lookup(c, m.source) + 1 && Lookup(c, s) < Lookup(m.vector, s) <= v)
    && forall a | a in m.vector && a != m.source && a != s :: m.vector[a] <= Lookup(c, a)
  }

  lemma RaiseReadiesIff(c: Clock, s: Actor, v: nat, m: Message)
    requires Lookup(c, s) <= v && !Deliverable(c, m)
    ensures Deliverable(c[s := v], m) <==> WaitsFor(c, s, v, m)
  {
  }

  /** Does `op` raise an entry, without a drain, that a held message waits for? Said of the state before. */
  ghost predicate Stirs(e: Endpoint, op: Op) {
    match op
    case DoSend(_, _) => exists m :: m in e.held && WaitsFor(e.clock, e.actor, Lookup(e.clock, e.actor) + 1, m)
    case DoReceive(h) =>
      var v := Max(Lookup(e.clock, h.source), h.Counter());
      h.Health() && exists m :: m in e.held && WaitsFor(e.clock, h.source, v, m)
  }

  /** Raising one entry of a clock leaves a queue with nothing ready in that state exactly if no message of
      it waits for just that. */
  lemma RaiseKeepsQuiescentIff(c: Clock, s: Actor, v: nat, held: seq<Message>)
    requires Quiescent(c, held) && Lookup(c, s) <= v
    ensures Quiescent(c[s := v], held) <==> !exists m :: m in held && WaitsFor(c, s, v, m)
  {
    forall m | m in held
      ensures Deliverable(c[s := v], m) <==> WaitsFor(c, s, v, m)
    {
      RaiseReadiesIff(c, s, v, m);
    }
  }

  /** One operation on an endpoint with nothing ready leaves something ready exactly if it stirs. */
  lemma StepQuietIff(e: Endpoint, op: Op)
    requires HealthFree(e.held) && Quiescent(e.clock, e.held)
    ensures Quiescent(Step(e, op).clock, Step(e, op).held) <==> !Stirs(e, op)
  {
    hide Quiescent, WaitsFor;
    match op {
      case DoSend(kind, id) =>
        RaiseKeepsQuiescentIff(e.clock, e.actor, Lookup(e.clock, e.actor) + 1, e.held);
      case DoReceive(h) =>
        if h.Health() {
          RaiseKeepsQuiescentIff(e.clock, h.source, Max(Lookup(e.clock, h.source), h.Counter()), e.held);
        } else {
          var _ := ReceiveEffect(e, h);
        }
    }
  }

  // ------------------------------------------------------------------
  // Runs of one endpoint, whatever it is sent
  // ------------------------------------------------------------------

  /** Nothing held is ready, now and after each of the operations. */
  ghost predicate EverQuiet(e: Endpoint, ops: seq<Op>)
    decreases |ops|
  {
    Quiescent(e.clock, e.held) && (ops != [] ==> EverQuiet(Step(e, ops[0]), ops[1..]))
  }

  ghost predicate NeverStirred(e: Endpoint, ops: seq<Op>)
    decreases |ops|
  {
    ops == [] || (!Stirs(e, ops[0]) && NeverStirred(Step(e, ops[0]), ops[1..]))
  }

  lemma {:induction false} EverQuietFrom(e: Endpoint, ops: seq<Op>)
    requires HealthFree(e.held) && Quiescent(e.clock, e.held)
    ensures EverQuiet(e, ops) <==> NeverStirred(e, ops)
    decreases |ops|
  {
    if ops != [] {
      hide Quiescent, Stirs;
      var f := Step(e, ops[0]);
      StepQuietIff(e, ops[0]);
      if Quiescent(f.clock, f.held) {
        assert HealthFree(f.held) by {
          StepHealthFree(e, ops[0]);
        }
        EverQuietFrom(f, ops[1..]);
      } else {
        assert !EverQuiet(f, ops[1..]);
      }
    }
  }

  lemma StepHealthFree(e: Endpoint, op: Op)
    requires HealthFree(e.held)
    ensures HealthFree(Step(e, op).held)
  {
    if op.DoReceive? {
      var _ := ReceiveEffect(e, op.msg);
    }
  }

  /** Under arbitrary traffic, forged messages included, no held message is ever ready at an endpoint
      exactly if none of its sends and no health message ever raises an entry that one waits for. */
  lemma EverQuietIff(actor: Actor, ops: seq<Op>)
    ensures EverQuiet(Create(actor), ops) <==> NeverStirred(Create(actor), ops)
  {
    EverQuietFrom(Create(actor), ops);
  }

  /** A send can stir: a message that names the receiver's next counter, as no honest one can, is held,
      and the receiver's own send makes it ready without a drain. */
  lemma ForgedMessageIsLeftReady(a: Actor, b: Actor, kind: string, id1: string, id2: string)
    returns (m: Message, ops: seq<Op>)
    requires a != b && kind != HEALTH
    ensures m.source == a && Lookup(m.vector, b) == 1
    ensures ops == [DoReceive(m), DoSend(kind, id2)]
    ensures var e := Exec(Create(b), ops);
            m in e.held && Deliverable(e.clock, m) && m !in Log(e.history)
  {
    m := Message(id1, a, kind, map[a := 1, b := 1]);
    ops := [DoReceive(m), DoSend(kind, id2)];
    var e := Create(b);
    assert b in m.vector && m.vector[b] == 1 && Lookup(e.clock, b) == 0;
    var f := Receive(e, m);
    assert e.held + [m] == [m];
    assert Sweep(e.clock, [m]) == Outcome(e.clock, [m], []);
    assert f.held == [m] && f.clock == e.clock && f.history == [];
    var g := Send(f, kind, id2);
    assert ops[1..] == [DoSend(kind, id2)] && ops[1..][1..] == [];
    assert Exec(f, ops[1..]) == Exec(g, []) == g;
    SendLog(f, kind, id2);
  }

  // ------------------------------------------------------------------
  // Runs of a closed network
  // ------------------------------------------------------------------

  ghost predicate Quiet(n: Net) {
    forall p | p in n.eps :: Quiescent(n.eps[p].clock, n.eps[p].held)
  }

  /** A health message reaches an endpoint that holds something waiting for it. */
  ghost predicate StirredByHealth(n: Net, act: Action) {
    act.NetReceive? && act.msg.Health() && act.p in n.eps && Stirs(n.eps[act.p], DoReceive(act.msg))
  }

  /** No message of a network knows more of an actor than that actor does, so nothing waits for a send. */
  lemma SendNeverStirs(n: Net, p: Actor, kind: string, id: string)
    requires NetSound(n) && p in n.eps
    ensures !Stirs(n.eps[p], DoSend(kind, id))
  {
    hide Sound, Authentic, Recorded, Bounded, Omniscient;
    NothingBeyond(n, p, p);
    var e := n.eps[p];
    forall m | m in e.held
      ensures !WaitsFor(e.clock, e.actor, Lookup(e.clock, e.actor) + 1, m)
    {
      assert Lookup(m.vector, p) <= Lookup(e.clock, p);
    }
  }

  lemma ApplyQuietIff(n: Net, act: Action)
    requires NetSound(n) && Quiet(n) && Enabled(n, act)
    ensures Quiet(Apply(n, act)) <==> !StirredByHealth(n, act)
  {
    hide Timed, Stamped, Authentic, Recorded, Bounded, Omniscient, Stirs, Quiescent, Send, Receive, Outbound;
    assert Sound(n.eps[act.p]);
    match act {
      case NetSend(p, kind, id) =>
        StepQuietIff(n.eps[p], DoSend(kind, id));
        SendNeverStirs(n, p, kind, id);
      case NetReceive(p, m) =>
        StepQuietIff(n.eps[p], DoReceive(m));
        if !m.Health() {
          CausalNeverStirs(n.eps[p], m);
        }
        assert Apply(n, act).eps[p] == Step(n.eps[p], DoReceive(m));
    }
  }

  lemma CausalNeverStirs(e: Endpoint, m: Message)
    requires !m.Health()
    ensures !Stirs(e, DoReceive(m))
  {
  }

  ghost predicate EverQuietNet(n: Net, run: seq<Action>)
    requires ValidRun(n, run)
    decreases |run|
  {
    Quiet(n) && (run != [] ==> EverQuietNet(Apply(n, run[0]), run[1..]))
  }

  ghost predicate NeverStirredNet(n: Net, run: seq<Action>)
    requires ValidRun(n, run)
    decreases |run|
  {
    run == [] || (!StirredByHealth(n, run[0]) && NeverStirredNet(Apply(n, run[0]), run[1..]))
  }

  lemma {:induction false} EverQuietNetFrom(n: Net, run: seq<Action>)
    requires NetSound(n) && Quiet(n) && ValidRun(n, run)
    ensures EverQuietNet(n, run) <==> NeverStirredNet(n, run)
    decreases |run|
  {
    if run != [] {
      hide NetSound, Quiet, StirredByHealth;
      ApplyQuietIff(n, run[0]);
      ApplySound(n, run[0]);
      if Quiet(Apply(n, run[0])) {
        EverQuietNetFrom(Apply(n, run[0]), run[1..]);
      } else {
        assert !EverQuietNet(Apply(n, run[0]), run[1..]);
      }
    }
  }

  /** In a network no held message is ever ready exactly if no health message ever reaches an endpoint that
      holds something waiting for it: sending enables nothing, and a causal arrival is always drained. */
  lemma QuiescentAlwaysIff(actors: set<Actor>, run: seq<Action>)
    requires ValidRun(Boot(actors), run)
    ensures EverQuietNet(Boot(actors), run) <==> NeverStirredNet(Boot(actors), run)
  {
    hide NetSound;
    BootSound(actors);
    EverQuietNetFrom(Boot(actors), run);
  }

  lemma {:induction false} EndIsQuiet(n: Net, run: seq<Action>)
    requires ValidRun(n, run) && EverQuietNet(n, run)
    ensures Quiet(Run(n, run))
    decreases |run|
  {
    hide Quiet;
    if run != [] {
      EndIsQuiet(Apply(n, run[0]), run[1..]);
    }
  }

  lemma {:induction false} HealthFreeNeverStirs(n: Net, run: seq<Action>)
    requires ValidRun(n, run) && HealthFree(Run(n, run).sent)
    ensures NeverStirredNet(n, run) && n.sent <= Run(n, run).sent
    decreases |run|
  {
    hide Stirs;
    if run != [] {
      HealthFreeNeverStirs(Apply(n, run[0]), run[1..]);
      if run[0].NetReceive? {
        assert run[0].msg in Run(n, run).sent;
      }
    }
  }

  /** Without health traffic no held message is ready in any reachable state. */
  lemma QuiescentAlways(actors: set<Actor>, run: seq<Action>, p: Actor, m: Message)
    requires CausalRun(actors, run) && p in actors
    requires m in Run(Boot(actors), run).eps[p].held
    ensures !Deliverable(Run(Boot(actors), run).eps[p].clock, m)
  {
    hide StirredByHealth;
    HealthFreeNeverStirs(Boot(actors), run);
    QuiescentAlwaysIff(actors, run);
    EndIsQuiet(Boot(actors), run);
  }
}
