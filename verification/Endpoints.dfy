/** One causal-broadcast endpoint as a value, and what holds in every run of it, whatever it is sent. */
module Endpoints {
  import opened VectorClocks
  import opened DeliveryChains
  import opened HoldQueues

  datatype Event = Sent(msg: Message) | Delivered(msg: Message)

  /** `history` orders the endpoint's sends and deliveries; its deliveries are the delivery log.
      `arrived` lists what `receive` was called with. */
  datatype Endpoint = Endpoint(
    actor: Actor,
    clock: Clock,
    held: seq<Message>,
    history: seq<Event>,
    arrived: seq<Message>)

  datatype Op = DoSend(kind: string, id: string) | DoReceive(msg: Message)

  function Start(actor: Actor): Clock {
    map[actor := 0]
  }

  function Create(actor: Actor): Endpoint {
    Endpoint(actor, Start(actor), [], [], [])
  }

  /** The message `send` returns: it carries a copy of the clock after its own entry was bumped. */
  function Outbound(e: Endpoint, kind: string, id: string): Message {
    Message(id, e.actor, kind, e.clock[e.actor := Lookup(e.clock, e.actor) + 1])
  }

  function Send(e: Endpoint, kind: string, id: string): Endpoint {
    e.(clock := e.clock[e.actor := Lookup(e.clock, e.actor) + 1],
       history := e.history + [Sent(Outbound(e, kind, id))])
  }

  function Receive(e: Endpoint, m: Message): Endpoint {
    if m.Health() then
      e.(clock := Advance(e.clock, m), history := e.history + [Delivered(m)], arrived := e.arrived + [m])
    else
      var d := Drain(e.clock, e.held + [m]);
      e.(clock := d.clock, held := d.held, history := e.history + Deliveries(d.out), arrived := e.arrived + [m])
  }

  function Step(e: Endpoint, op: Op): Endpoint {
    match op
    case DoSend(kind, id) => Send(e, kind, id)
    case DoReceive(m) => Receive(e, m)
  }

  function Exec(e: Endpoint, ops: seq<Op>): Endpoint
    decreases |ops|
  {
    if ops == [] then e else Exec(Step(e, ops[0]), ops[1..])
  }

  function Deliveries(ms: seq<Message>): seq<Event> {
    seq(|ms|, i requires 0 <= i < |ms| => Delivered(ms[i]))
  }

  function Messages(h: seq<Event>): seq<Message> {
    seq(|h|, i requires 0 <= i < |h| => h[i].msg)
  }

  /** The delivery log: the delivered messages, in order. */
  function Log(h: seq<Event>): seq<Message> {
    if h == [] then [] else (if h[0].Delivered? then [h[0].msg] else []) + Log(h[1..])
  }

  lemma MessagesAppend(h: seq<Event>, g: seq<Event>)
    ensures Messages(h + g) == Messages(h) + Messages(g)
  {
  }

  lemma MessagesOfDeliveries(ms: seq<Message>)
    ensures Messages(Deliveries(ms)) == ms
  {
  }

  lemma {:induction false} LogAppend(h: seq<Event>, g: seq<Event>)
    ensures Log(h + g) == Log(h) + Log(g)
  {
    if h == [] {
      assert h + g == g;
    } else {
      assert (h + g)[1..] == h[1..] + g;
      LogAppend(h[1..], g);
    }
  }

  lemma {:induction false} LogOfDeliveries(ms: seq<Message>)
    ensures Log(Deliveries(ms)) == ms
    decreases |ms|
  {
    if ms != [] {
      assert Deliveries(ms)[1..] == Deliveries(ms[1..]);
      LogOfDeliveries(ms[1..]);
    }
  }

  /** The k-th delivery is an event of the history, and the log before it is the log up to there. */
  lemma {:induction false} LogIndex(h: seq<Event>, k: nat) returns (j: nat)
    requires k < |Log(h)|
    ensures j < |h| && h[j] == Delivered(Log(h)[k]) && Log(h[..j]) == Log(h)[..k]
  {
    if h[0].Delivered? && k == 0 {
      j := 0;
    } else if h[0].Delivered? {
      var i := LogIndex(h[1..], k - 1);
      j := i + 1;
      assert h[..j] == [h[0]] + h[1..][..i];
    } else {
      var i := LogIndex(h[1..], k);
      j := i + 1;
      assert h[..j] == [h[0]] + h[1..][..i];
    }
  }

  lemma {:induction false} InLog(h: seq<Event>, i: nat)
    requires i < |h| && h[i].Delivered?
    ensures h[i].msg in Log(h)
  {
    if i > 0 {
      InLog(h[1..], i - 1);
    }
  }

  lemma InLogIsEvent(h: seq<Event>, m: Message) returns (i: nat)
    requires m in Log(h)
    ensures i < |h| && h[i] == Delivered(m)
  {
    var k :| 0 <= k < |Log(h)| && Log(h)[k] == m;
    i := LogIndex(h, k);
  }

  /** The place of a delivery in the log. */
  lemma PlaceInLog(h: seq<Event>, j: nat)
    requires j < |h| && h[j].Delivered?
    ensures var k := |Log(h[..j])|;
            k < |Log(h)| && Log(h)[k] == h[j].msg && Log(h)[..k] == Log(h[..j])
  {
    assert h == h[..j] + h[j..];
    LogAppend(h[..j], h[j..]);
  }

  // ------------------------------------------------------------------
  // The invariant of every run
  // ------------------------------------------------------------------

  /** The clock is what the history left, and the history is a chain of admissible messages. */
  ghost predicate Timed(e: Endpoint) {
    && Chain(Start(e.actor), Messages(e.history))
    && e.clock == After(Start(e.actor), Messages(e.history))
  }

  /** A sent message carries the clock the endpoint had right after that send, and its own next counter. */
  ghost predicate Stamped(e: Endpoint) {
    forall i | 0 <= i < |e.history| && e.history[i].Sent? ::
      && e.history[i].msg.source == e.actor
      && e.history[i].msg.vector == After(Start(e.actor), Messages(e.history)[..i + 1])
      && Deliverable(After(Start(e.actor), Messages(e.history)[..i]), e.history[i].msg)
  }

  /** Nothing received is lost or invented, and the queue keeps the order of arrival. */
  ghost predicate Conserved(e: Endpoint) {
    && multiset(e.arrived) == multiset(Log(e.history)) + multiset(e.held)
    && Subsequence(e.held, e.arrived)
    && HealthFree(e.held)
  }

  ghost predicate Sound(e: Endpoint) {
    Timed(e) && Stamped(e) && Conserved(e)
  }

  lemma CreateSound(actor: Actor)
    ensures Sound(Create(actor))
  {
    SubsequenceSelf([]);
  }

  lemma OutboundIsDeliverable(e: Endpoint, kind: string, id: string)
    ensures var m := Outbound(e, kind, id);
            Deliverable(e.clock, m) && Advance(e.clock, m) == Send(e, kind, id).clock
  {
  }

  /** Deliveries appended to a history leave the stamps of its earlier sends as they were. */
  lemma StampedExtends(e: Endpoint, f: Endpoint, out: seq<Message>)
    requires Stamped(e) && f.actor == e.actor && f.history == e.history + Deliveries(out)
    ensures Stamped(f)
  {
    MessagesAppend(e.history, Deliveries(out));
    forall i | 0 <= i < |f.history| && f.history[i].Sent?
      ensures i < |e.history|
      ensures f.history[i] == e.history[i]
      ensures Messages(f.history)[..i + 1] == Messages(e.history)[..i + 1]
      ensures Messages(f.history)[..i] == Messages(e.history)[..i]
    {
    }
  }

  lemma SendTimed(e: Endpoint, kind: string, id: string)
    requires Timed(e)
    ensures Timed(Send(e, kind, id))
    ensures Messages(Send(e, kind, id).history) == Messages(e.history) + [Outbound(e, kind, id)]
  {
    var m := Outbound(e, kind, id);
    OutboundIsDeliverable(e, kind, id);
    MessagesAppend(e.history, [Sent(m)]);
    assert Messages([Sent(m)]) == [m];
    ChainAppend(Start(e.actor), Messages(e.history), [m]);
    AfterAppend(Start(e.actor), Messages(e.history), [m]);
  }

  lemma SendStamped(e: Endpoint, kind: string, id: string)
    requires Timed(e) && Stamped(e)
    ensures Stamped(Send(e, kind, id))
  {
    var f, m, ms := Send(e, kind, id), Outbound(e, kind, id), Messages(e.history);
    SendTimed(e, kind, id);
    OutboundIsDeliverable(e, kind, id);
    forall i | 0 <= i < |f.history| && f.history[i].Sent?
      ensures f.history[i].msg.source == e.actor
      ensures f.history[i].msg.vector == After(Start(e.actor), Messages(f.history)[..i + 1])
      ensures Deliverable(After(Start(e.actor), Messages(f.history)[..i]), f.history[i].msg)
    {
      if i < |e.history| {
        assert Messages(f.history)[..i + 1] == ms[..i + 1];
        assert Messages(f.history)[..i] == ms[..i];
        assert f.history[i] == e.history[i];
      } else {
        assert Messages(f.history)[..i + 1] == Messages(f.history);
        assert Messages(f.history)[..i] == ms;
      }
    }
  }

  lemma SendLog(e: Endpoint, kind: string, id: string)
    ensures Log(Send(e, kind, id).history) == Log(e.history)
  {
    LogAppend(e.history, [Sent(Outbound(e, kind, id))]);
    assert Log([Sent(Outbound(e, kind, id))]) == [];
  }

  lemma SendSound(e: Endpoint, kind: string, id: string)
    requires Sound(e)
    ensures Sound(Send(e, kind, id))
  {
    SendTimed(e, kind, id);
    SendStamped(e, kind, id);
    SendLog(e, kind, id);
  }

  /** One receive, said by its effect: some messages `out` are delivered, as a chain, out of what was
      held and the newcomer; the rest stays held in order; after a causal arrival nothing held is ready. */
  lemma ReceiveEffect(e: Endpoint, m: Message) returns (out: seq<Message>)
    requires HealthFree(e.held)
    ensures var f := Receive(e, m);
            && f.actor == e.actor && f.arrived == e.arrived + [m]
            && f.history == e.history + Deliveries(out) && Log(f.history) == Log(e.history) + out
            && Chain(e.clock, out) && f.clock == After(e.clock, out)
            && multiset(e.held + [m]) == multiset(out) + multiset(f.held)
            && Subsequence(f.held, e.held + [m]) && HealthFree(f.held)
            && (m.Health() ==> out == [m] && f.held == e.held)
            && (!m.Health() ==> CausalChain(e.clock, out) && HealthFree(out) && Quiescent(f.clock, f.held))
  {
    if m.Health() {
      out := [m];
      assert [Delivered(m)] == Deliveries(out);
      SubsequenceSelf(e.held);
      SubsequenceSnoc(e.held, e.held, m);
    } else {
      out := Drain(e.clock, e.held + [m]).out;
      DrainFacts(e.clock, e.held + [m]);
    }
    LogAppend(e.history, Deliveries(out));
    LogOfDeliveries(out);
  }

  lemma ReceiveTimed(e: Endpoint, m: Message)
    requires Timed(e) && HealthFree(e.held)
    ensures Timed(Receive(e, m))
  {
    var out := ReceiveEffect(e, m);
    MessagesAppend(e.history, Deliveries(out));
    MessagesOfDeliveries(out);
    ChainAppend(Start(e.actor), Messages(e.history), out);
    AfterAppend(Start(e.actor), Messages(e.history), out);
  }

  lemma Rebalance(arrived: seq<Message>, log: seq<Message>, held: seq<Message>, m: Message,
                  out: seq<Message>, kept: seq<Message>)
    requires multiset(arrived) == multiset(log) + multiset(held)
    requires multiset(held + [m]) == multiset(out) + multiset(kept)
    ensures multiset(arrived + [m]) == multiset(log + out) + multiset(kept)
  {
    calc {
      multiset(arrived + [m]);
      multiset(log) + (multiset(held) + multiset{m});
      { assert multiset(held + [m]) == multiset(held) + multiset{m}; }
      multiset(log) + multiset(out) + multiset(kept);
    }
  }

  lemma ReceiveConserved(e: Endpoint, m: Message)
    requires Conserved(e)
    ensures Conserved(Receive(e, m))
  {
    var f := Receive(e, m);
    var out := ReceiveEffect(e, m);
    Rebalance(e.arrived, Log(e.history), e.held, m, out, f.held);
    assert Subsequence(f.held, f.arrived) by {
      SubsequenceSnoc(e.held, e.arrived, m);
      SubsequenceTransitive(f.held, e.held + [m], e.arrived + [m]);
    }
  }

  lemma ReceiveSound(e: Endpoint, m: Message)
    requires Sound(e)
    ensures Sound(Receive(e, m))
  {
    var out := ReceiveEffect(e, m);
    ReceiveTimed(e, m);
    ReceiveConserved(e, m);
    StampedExtends(e, Receive(e, m), out);
  }

  lemma {:induction false} ExecSound(e: Endpoint, ops: seq<Op>)
    requires Sound(e)
    ensures Sound(Exec(e, ops))
    ensures Exec(e, ops).actor == e.actor
    decreases |ops|
  {
    if ops != [] {
      match ops[0] {
        case DoSend(kind, id) => SendSound(e, kind, id);
        case DoReceive(m) => ReceiveSound(e, m);
      }
      ExecSound(Step(e, ops[0]), ops[1..]);
    }
  }

  lemma HeldArrived(e: Endpoint, m: Message)
    requires Conserved(e)
    ensures m in e.held ==> m in e.arrived
    ensures m in e.arrived ==> m in Log(e.history) || m in e.held
  {
    assert m in e.held ==> m in multiset(e.held);
    assert m in e.arrived ==> m in multiset(e.arrived);
  }
}
