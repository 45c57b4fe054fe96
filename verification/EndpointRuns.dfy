/** What holds in every run of a single endpoint, whatever the outside world sends it:
    stale, forged, duplicated, reordered or out-of-range messages included. */
module EndpointRuns {
  import opened VectorClocks
  import opened DeliveryChains
  import opened HoldQueues
  import opened Endpoints

  /** What `receive` is called with in a run. */
  function Inbound(ops: seq<Op>): seq<Message> {
    if ops == [] then []
    else (if ops[0].DoReceive? then [ops[0].msg] else []) + Inbound(ops[1..])
  }

  function RunOf(actor: Actor, ops: seq<Op>): Endpoint {
    Exec(Create(actor), ops)
  }

  lemma {:induction false} ExecArrivals(e: Endpoint, ops: seq<Op>)
    ensures Exec(e, ops).arrived == e.arrived + Inbound(ops)
    decreases |ops|
  {
    if ops != [] {
      ExecArrivals(Step(e, ops[0]), ops[1..]);
    }
  }

  lemma RunSound(actor: Actor, ops: seq<Op>)
    ensures Sound(RunOf(actor, ops))
    ensures RunOf(actor, ops).actor == actor
    ensures RunOf(actor, ops).arrived == Inbound(ops)
  {
    hide Sound, Exec;
    CreateSound(actor);
    ExecSound(Create(actor), ops);
    ExecArrivals(Create(actor), ops);
  }

  // ------------------------------------------------------------------
  // Sending
  // ------------------------------------------------------------------

  /** The sends that a run asks for, and the messages that an endpoint has sent. */
  function Sends(ops: seq<Op>): seq<Op> {
    if ops == [] then [] else (if ops[0].DoSend? then [ops[0]] else []) + Sends(ops[1..])
  }

  function SentIn(h: seq<Event>): seq<Message> {
    if h == [] then [] else (if h[0].Sent? then [h[0].msg] else []) + SentIn(h[1..])
  }

  lemma {:induction false} SentInAppend(h: seq<Event>, g: seq<Event>)
    ensures SentIn(h + g) == SentIn(h) + SentIn(g)
  {
    if h == [] {
      assert h + g == g;
    } else {
      SentInAppend(h[1..], g);
      assert (h + g)[0] == h[0] && (h + g)[1..] == h[1..] + g;
      Associative(if h[0].Sent? then [h[0].msg] else [], SentIn(h[1..]), SentIn(g));
    }
  }

  lemma Associative(xs: seq<Message>, ys: seq<Message>, zs: seq<Message>)
    ensures xs + (ys + zs) == xs + ys + zs
  {
  }

  lemma {:induction false} DeliveriesSendNothing(ms: seq<Message>)
    ensures SentIn(Deliveries(ms)) == []
    decreases |ms|
  {
    if ms != [] {
      assert Deliveries(ms)[1..] == Deliveries(ms[1..]);
      DeliveriesSendNothing(ms[1..]);
    }
  }

  /** The message is the one asked for: its kind, its id, in this actor's name. */
  ghost predicate Answers(actor: Actor, op: Op, m: Message) {
    op.DoSend? && m.kind == op.kind && m.id == op.id && m.source == actor
  }

  lemma StepSends(e: Endpoint, op: Op) returns (more: seq<Message>)
    ensures SentIn(Step(e, op).history) == SentIn(e.history) + more
    ensures |more| == (if op.DoSend? then 1 else 0) && (op.DoSend? ==> Answers(e.actor, op, more[0]))
  {
    match op {
      case DoSend(kind, id) =>
        SentInAppend(e.history, [Sent(Outbound(e, kind, id))]);
        more := [Outbound(e, kind, id)];
        assert SentIn([Sent(Outbound(e, kind, id))]) == more;
      case DoReceive(m) =>
        var out := if m.Health() then [m] else Drain(e.clock, e.held + [m]).out;
        assert [Delivered(m)] == Deliveries([m]);
        SentInAppend(e.history, Deliveries(out));
        DeliveriesSendNothing(out);
        more := [];
    }
  }

  lemma {:induction false} ExecSends(e: Endpoint, ops: seq<Op>)
    ensures var before, after := SentIn(e.history), SentIn(Exec(e, ops).history);
            && before <= after && |after| == |before| + |Sends(ops)|
            && forall k | 0 <= k < |Sends(ops)| :: Answers(e.actor, Sends(ops)[k], after[|before| + k])
    decreases |ops|
  {
    if ops != [] {
      var _ := StepSends(e, ops[0]);
      ExecSends(Step(e, ops[0]), ops[1..]);
    }
  }

  /** In every run, the messages sent are those asked for, one for each send, in order. */
  lemma SentAsAsked(actor: Actor, ops: seq<Op>)
    ensures var sent := SentIn(RunOf(actor, ops).history);
            && |sent| == |Sends(ops)|
            && forall k | 0 <= k < |sent| ::
                 && Sends(ops)[k].DoSend? && sent[k].source == actor
                 && sent[k].kind == Sends(ops)[k].kind && sent[k].id == Sends(ops)[k].id
  {
    ExecSends(Create(actor), ops);
  }

  /** Conservation and order: received = delivered + held as multisets, and the hold queue is an
      order-preserving subsequence of the arrivals, in every run, health and duplicates included. */
  lemma Conservation(actor: Actor, ops: seq<Op>)
    ensures var e := RunOf(actor, ops);
            && multiset(Inbound(ops)) == multiset(Log(e.history)) + multiset(e.held)
            && Subsequence(e.held, Inbound(ops))
  {
    RunSound(actor, ops);
  }

  /** An event that did not arrive as health passed the test when it happened. */
  lemma EventReady(e: Endpoint, i: nat)
    requires Timed(e) && Stamped(e) && i < |e.history|
    requires e.history[i].Sent? || !e.history[i].msg.Health()
    ensures Deliverable(After(Start(e.actor), Messages(e.history)[..i]), Messages(e.history)[i])
  {
    ChainAt(Start(e.actor), Messages(e.history), i);
  }

  /** No inversion, health traffic or not: of two causal deliveries the later one is never already
      reflected in the earlier one's vector, so nothing is delivered after something that depends on
      it, and nothing is delivered twice. Delivered counters never exceed the clock. */
  lemma NoInversionInAnyRun(actor: Actor, ops: seq<Op>, i: nat, j: nat)
    requires var log := Log(RunOf(actor, ops).history);
             i < j < |log| && !log[i].Health() && !log[j].Health()
    ensures var e := RunOf(actor, ops); var log := Log(e.history);
            && Lookup(log[i].vector, log[j].source) < log[j].Counter() <= Lookup(e.clock, log[j].source)
            && log[i] != log[j]
  {
    var e := RunOf(actor, ops);
    var h, ms := e.history, Messages(e.history);
    RunSound(actor, ops);
    var y := LogIndex(h, j);
    assert Log(h)[i] in Log(h)[..j];
    var x := InLogIsEvent(h[..y], Log(h)[i]);
    EventReady(e, x);
    EventReady(e, y);
    NoInversion(Start(actor), ms, x, y);
    KnownAfter(Start(actor), ms, y);
  }

  /** With no health message among the arrivals the whole history is a causal chain. */
  lemma CausalHistory(e: Endpoint)
    requires Sound(e) && HealthFree(e.arrived)
    ensures CausalChain(Start(e.actor), Messages(e.history))
  {
    var h := e.history;
    forall i | 0 <= i < |h| && Messages(h)[i].Health()
      ensures Deliverable(After(Start(e.actor), Messages(h)[..i]), Messages(h)[i])
    {
      if h[i].Delivered? {
        InLog(h, i);
        assert h[i].msg in multiset(e.arrived);
      }
      EventReady(e, i);
    }
    ChainIsCausal(Start(e.actor), Messages(h));
  }

  lemma {:induction false} CountersOfLog(h: seq<Event>, s: Actor)
    requires forall i | 0 <= i < |h| && h[i].Sent? :: h[i].msg.source != s
    ensures Counters(Messages(h), s) == Counters(Log(h), s)
  {
    if h != [] {
      assert Messages(h)[1..] == Messages(h[1..]);
      CountersOfLog(h[1..], s);
      CountersAppend(if h[0].Delivered? then [h[0].msg] else [], Log(h[1..]), s);
    }
  }

  /** The counters delivered from `s` are exactly 1, 2, ..., clock[s]. */
  ghost predicate GapFree(e: Endpoint, s: Actor) {
    && |Counters(Log(e.history), s)| == Lookup(e.clock, s)
    && forall k | 0 <= k < Lookup(e.clock, s) :: Counters(Log(e.history), s)[k] == k + 1
  }

  /** Gap-free FIFO: with no health message among the arrivals the log is free of gaps and repeats,
      actor by actor, forged and duplicated messages notwithstanding. */
  lemma GapFreeFifo(actor: Actor, ops: seq<Op>, s: Actor)
    requires HealthFree(Inbound(ops)) && s != actor
    ensures GapFree(RunOf(actor, ops), s)
  {
    var e := RunOf(actor, ops);
    RunSound(actor, ops);
    CausalHistory(e);
    CountersConsecutive(Start(actor), Messages(e.history), s);
    CountersOfLog(e.history, s);
  }

  /** The one-entry updates add up to full merging: the clock is the join of all vectors the endpoint
      sent or delivered. */
  lemma ClockIsJoin(actor: Actor, ops: seq<Op>)
    requires HealthFree(Inbound(ops))
    ensures var e := RunOf(actor, ops);
            SameKnowledge(e.clock, MergeAll(Start(actor), Messages(e.history)))
  {
    var e := RunOf(actor, ops);
    RunSound(actor, ops);
    CausalHistory(e);
    CheapRunIsMergeRun(Start(actor), Start(actor), Messages(e.history));
  }

  // ------------------------------------------------------------------
  // Continuing a run
  // ------------------------------------------------------------------

  lemma StepGrows(e: Endpoint, op: Op)
    requires HealthFree(e.held)
    ensures HealthFree(Step(e, op).held) && Below(e.clock, Step(e, op).clock)
  {
    if op.DoReceive? {
      var out := ReceiveEffect(e, op.msg);
      AfterGrows(e.clock, out);
    }
  }

  lemma CountAfterMove(held: seq<Message>, n: Message, out: seq<Message>, kept: seq<Message>, m: Message)
    requires multiset(held + [n]) == multiset(out) + multiset(kept) && m !in out
    ensures multiset(kept)[m] >= multiset(held)[m]
  {
    assert multiset(held + [n]) == multiset(held) + multiset([n]);
    assert m !in multiset(out);
    calc {
      multiset(kept)[m];
      (multiset(out) + multiset(kept))[m];
      (multiset(held) + multiset([n]))[m];
      multiset(held)[m] + multiset([n])[m];
    }
  }

  lemma StepKeepsStale(e: Endpoint, op: Op, m: Message)
    requires HealthFree(e.held)
    requires !m.Health() && m.Counter() <= Lookup(e.clock, m.source)
    ensures var f := Step(e, op);
            && multiset(f.held)[m] >= multiset(e.held)[m]
            && multiset(Log(f.history))[m] == multiset(Log(e.history))[m]
  {
    match op {
      case DoSend(kind, id) =>
        SendLog(e, kind, id);
      case DoReceive(n) =>
        var out := ReceiveEffect(e, n);
        StaleNotInChain(e.clock, out, m);
        CountAfterMove(e.held, n, out, Receive(e, n).held, m);
    }
  }

  /** Clocks only rise; and a message whose slot has passed is never delivered and, once held, never
      leaves the hold queue, whatever happens next. */
  lemma {:induction false} StaleForever(e: Endpoint, ops: seq<Op>, m: Message)
    requires HealthFree(e.held)
    requires !m.Health() && m.Counter() <= Lookup(e.clock, m.source)
    ensures var f := Exec(e, ops);
            && Below(e.clock, f.clock)
            && multiset(f.held)[m] >= multiset(e.held)[m]
            && multiset(Log(f.history))[m] == multiset(Log(e.history))[m]
    decreases |ops|
  {
    if ops != [] {
      var f := Step(e, ops[0]);
      StepGrows(e, ops[0]);
      StepKeepsStale(e, ops[0], m);
      StaleForever(f, ops[1..], m);
      forall a
        ensures Lookup(e.clock, a) <= Lookup(Exec(e, ops).clock, a)
      {
        assert Lookup(e.clock, a) <= Lookup(f.clock, a);
      }
    }
  }
}
