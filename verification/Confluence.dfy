/** The order in which causal messages arrive does not matter: the drain computes a least fixed point. */
module Confluence {
  import opened VectorClocks
  import opened DeliveryChains
  import opened HoldQueues
  import opened Endpoints

  function ReceiveAll(e: Endpoint, ms: seq<Message>): Endpoint
    decreases |ms|
  {
    if ms == [] then e else ReceiveAll(Receive(e, ms[0]), ms[1..])
  }

  /** An endpoint between receives, as health-free traffic leaves it. */
  ghost predicate Settled(e: Endpoint) {
    HealthFree(e.held) && Quiescent(e.clock, e.held)
  }

  /** Distinct messages have distinct (source, counter). */
  ghost predicate DistinctSlots(pool: seq<Message>) {
    forall m, n | m in pool && n in pool && m.source == n.source && m.Counter() == n.Counter() :: m == n
  }

  predicate Claims(m: Message, s: Actor, k: int) {
    m.source == s && m.Counter() == k
  }

  /** The pool without the messages that claim one slot, and those messages. */
  function Others(pool: seq<Message>, s: Actor, k: int): seq<Message> {
    if pool == [] then [] else (if Claims(pool[0], s, k) then [] else [pool[0]]) + Others(pool[1..], s, k)
  }

  function Claimants(pool: seq<Message>, s: Actor, k: int): seq<Message> {
    if pool == [] then [] else (if Claims(pool[0], s, k) then [pool[0]] else []) + Claimants(pool[1..], s, k)
  }

  /** Two different messages claim one slot, and draining everything else makes both of them ready. */
  ghost predicate Contested(c: Clock, pool: seq<Message>) {
    exists m, n :: Contest(c, pool, m, n)
  }

  ghost predicate Contest(c: Clock, pool: seq<Message>, m: Message, n: Message) {
    && m in pool && n in pool && m != n && Claims(n, m.source, m.Counter())
    && var top := Drain(c, Others(pool, m.source, m.Counter())).clock;
       Deliverable(top, m) && Deliverable(top, n)
  }

  lemma DistinctIsUncontested(c: Clock, pool: seq<Message>)
    requires DistinctSlots(pool)
    ensures !Contested(c, pool)
  {
  }

  lemma {:induction false} OthersMeaning(pool: seq<Message>, s: Actor, k: int)
    ensures multiset(pool) == multiset(Others(pool, s, k)) + multiset(Claimants(pool, s, k))
    ensures forall x :: x in Others(pool, s, k) <==> x in pool && !Claims(x, s, k)
    ensures forall x :: x in Claimants(pool, s, k) <==> x in pool && Claims(x, s, k)
  {
    if pool != [] {
      OthersMeaning(pool[1..], s, k);
      assert pool == [pool[0]] + pool[1..];
    }
  }

  /** All receives of a batch together, said by their effect: `out` is delivered, as a causal chain. */
  ghost predicate BatchEffect(e: Endpoint, ms: seq<Message>, f: Endpoint, out: seq<Message>) {
    && Settled(f)
    && CausalChain(e.clock, out) && f.clock == After(e.clock, out)
    && Log(f.history) == Log(e.history) + out
    && multiset(e.held + ms) == multiset(out) + multiset(f.held)
  }

  lemma EffectsCompose(e: Endpoint, m: Message, f: Endpoint, first: seq<Message>, rest: seq<Message>,
                       g: Endpoint, last: seq<Message>)
    requires BatchEffect(e, [m], f, first) && BatchEffect(f, rest, g, last)
    ensures BatchEffect(e, [m] + rest, g, first + last)
  {
    hide CausalChain, After, Settled;
    CausalChainAppend(e.clock, first, last);
    AfterAppend(e.clock, first, last);
    assert Log(e.history) + (first + last) == Log(e.history) + first + last;
    Reassemble(e.held, [m] + rest, first, f.held, last, g.held);
  }

  lemma {:induction false} ReceiveAllEffect(e: Endpoint, ms: seq<Message>) returns (out: seq<Message>)
    requires Settled(e) && HealthFree(ms)
    ensures BatchEffect(e, ms, ReceiveAll(e, ms), out)
    decreases |ms|
  {
    if ms == [] {
      out := [];
      assert e.held + ms == e.held;
    } else {
      var m, rest := ms[0], ms[1..];
      assert m in ms;
      assert ms == [m] + rest;
      var f := Receive(e, m);
      var first := ReceiveEffect(e, m);
      assert BatchEffect(e, [m], f, first);
      var last := ReceiveAllEffect(f, rest);
      out := first + last;
      EffectsCompose(e, m, f, first, rest, ReceiveAll(e, ms), last);
    }
  }

  lemma Reassemble(held: seq<Message>, ms: seq<Message>, first: seq<Message>, kept: seq<Message>,
                   rest: seq<Message>, end: seq<Message>)
    requires ms != []
    requires multiset(held + [ms[0]]) == multiset(first) + multiset(kept)
    requires multiset(kept + ms[1..]) == multiset(rest) + multiset(end)
    ensures multiset(held + ms) == multiset(first + rest) + multiset(end)
  {
    assert ms == [ms[0]] + ms[1..];
    calc {
      multiset(held + ms);
      multiset(held) + multiset([ms[0]]) + multiset(ms[1..]);
      { assert multiset(held + [ms[0]]) == multiset(held) + multiset([ms[0]]); }
      multiset(first) + (multiset(kept) + multiset(ms[1..]));
      { assert multiset(kept + ms[1..]) == multiset(kept) + multiset(ms[1..]); }
      multiset(first) + multiset(rest) + multiset(end);
    }
  }

  /** Nothing of the whole pool is deliverable at the end: a message is still held, or its slot has passed. */
  lemma EndIsClosed(c: Clock, out: seq<Message>, held: seq<Message>, pool: seq<Message>)
    requires CausalChain(c, out) && Quiescent(After(c, out), held)
    requires multiset(pool) == multiset(out) + multiset(held)
    ensures Closed(After(c, out), pool)
    ensures forall m | m in out :: m in pool
  {
    forall m | m in pool
      ensures !Deliverable(After(c, out), m)
    {
      assert m in multiset(pool);
      if m in out {
        var i :| 0 <= i < |out| && out[i] == m;
        CausalChainAt(c, out, i);
        KnownAfter(c, out, i);
      }
    }
    forall m | m in out
      ensures m in pool
    {
      assert m in multiset(pool);
    }
  }

  /** The final clock is the least clock, from the starting one up, at which nothing received or held
      can be delivered: a description that mentions neither the queue nor any order. */
  lemma FinalClockIsLeast(e: Endpoint, ms: seq<Message>, top: Clock)
    requires Settled(e) && HealthFree(ms)
    ensures Closed(ReceiveAll(e, ms).clock, e.held + ms)
    ensures Below(e.clock, top) && Closed(top, e.held + ms) ==> Below(ReceiveAll(e, ms).clock, top)
  {
    var out := ReceiveAllEffect(e, ms);
    EndIsClosed(e.clock, out, ReceiveAll(e, ms).held, e.held + ms);
    if Below(e.clock, top) && Closed(top, e.held + ms) {
      ClosedClockDominates(e.clock, out, top, e.held + ms);
    }
  }

  /** A causal chain adds a key to the clock exactly where it raised an entry. */
  lemma {:induction false} AfterKeys(c: Clock, ms: seq<Message>, a: Actor)
    requires CausalChain(c, ms)
    ensures a in After(c, ms) <==> a in c || Lookup(c, a) < Lookup(After(c, ms), a)
    decreases |ms|
  {
    if ms != [] {
      AdvanceLookup(c, ms[0], a);
      AfterKeys(Advance(c, ms[0]), ms[1..], a);
      AfterGrows(Advance(c, ms[0]), ms[1..]);
    }
  }

  lemma SameClock(c: Clock, xs: seq<Message>, ys: seq<Message>)
    requires CausalChain(c, xs) && CausalChain(c, ys)
    requires SameKnowledge(After(c, xs), After(c, ys))
    ensures After(c, xs) == After(c, ys)
  {
    forall a
      ensures a in After(c, xs) <==> a in After(c, ys)
      ensures a in After(c, xs) ==> After(c, xs)[a] == After(c, ys)[a]
    {
      AfterKeys(c, xs, a);
      AfterKeys(c, ys, a);
      assert Lookup(After(c, xs), a) == Lookup(After(c, ys), a);
    }
  }

  /** Any two arrival orders of the same causal messages end with the same clock; no assumption on
      how the messages were numbered is needed for that. */
  lemma ClockConfluence(e: Endpoint, xs: seq<Message>, ys: seq<Message>)
    requires Settled(e) && HealthFree(xs) && multiset(xs) == multiset(ys)
    ensures HealthFree(ys)
    ensures ReceiveAll(e, xs).clock == ReceiveAll(e, ys).clock
  {
    forall m
      ensures m in ys <==> m in xs
    {
      assert m in ys <==> m in multiset(ys);
      assert m in xs <==> m in multiset(xs);
    }
    var outX := ReceiveAllEffect(e, xs);
    var outY := ReceiveAllEffect(e, ys);
    FinalClockIsLeast(e, xs, After(e.clock, outY));
    FinalClockIsLeast(e, ys, After(e.clock, outX));
    AfterGrows(e.clock, outX);
    AfterGrows(e.clock, outY);
    forall a
      ensures Lookup(After(e.clock, outX), a) == Lookup(After(e.clock, outY), a)
    {
      assert Below(After(e.clock, outX), After(e.clock, outY));
      assert Below(After(e.clock, outY), After(e.clock, outX));
    }
    SameClock(e.clock, outX, outY);
  }

  lemma {:induction false} OccursOnce(c: Clock, ms: seq<Message>, m: Message)
    requires CausalChain(c, ms)
    ensures multiset(ms)[m] == if m in ms then 1 else 0
    decreases |ms|
  {
    if ms != [] {
      assert ms == [ms[0]] + ms[1..];
      OccursOnce(Advance(c, ms[0]), ms[1..], m);
      if m == ms[0] && m in ms[1..] {
        var i :| 0 <= i < |ms[1..]| && ms[1..][i] == m;
        SlotUnique(c, ms, 0, i + 1);
      }
    }
  }

  /** What a chain over the pool delivers into a slot is ready once everything but that slot is drained. */
  lemma DeliveredIsReady(c: Clock, out: seq<Message>, i: nat, pool: seq<Message>)
    requires CausalChain(c, out) && i < |out|
    requires forall x | x in out :: x in pool
    ensures Deliverable(Drain(c, Others(pool, out[i].source, out[i].Counter())).clock, out[i])
  {
    var m := out[i];
    var s, k := m.source, m.Counter();
    var others, prefix := Others(pool, s, k), out[..i];
    var d := Drain(c, others);
    OthersMeaning(pool, s, k);
    DrainIsClosed(c, others);
    CausalChainAt(c, out, i);
    forall x | x in prefix
      ensures x in others
    {
      var j :| 0 <= j < i && out[j] == x;
      assert x in out;
      if Claims(x, s, k) {
        SlotUnique(c, out, i, j);
      }
    }
    ClosedClockDominates(c, prefix, d.clock, others);
    AfterGrows(c, prefix);
    BelowAt(c, After(c, prefix), s);
    RaisedOrNext(After(c, prefix), d.clock, m);
    if k <= Lookup(d.clock, s) {
      var j := SlotFilled(c, d.out, s, k);
      assert d.out[j] in others;
    }
  }

  lemma DrainIsClosed(c: Clock, pool: seq<Message>)
    ensures var d := Drain(c, pool);
            && CausalChain(c, d.out) && d.clock == After(c, d.out)
            && Below(c, d.clock) && Closed(d.clock, pool) && forall m | m in d.out :: m in pool
  {
    hide Closed;
    DrainMeaning(c, pool);
    var d := Drain(c, pool);
    EndIsClosed(c, d.out, d.held, pool);
    AfterGrows(c, d.out);
  }

  /** What one chain delivered another one ending at the same clock delivered too, unless it is contested. */
  lemma SameSlots(c: Clock, xs: seq<Message>, ys: seq<Message>, pool: seq<Message>, m: Message)
    requires CausalChain(c, xs) && CausalChain(c, ys) && After(c, xs) == After(c, ys)
    requires forall n | n in xs || n in ys :: n in pool
    requires !Contested(c, pool) && m in xs
    ensures m in ys
  {
    hide Contest, Others, Drain;
    var i :| 0 <= i < |xs| && xs[i] == m;
    CausalChainAt(c, xs, i);
    KnownAfter(c, xs, i);
    AfterGrows(c, xs[..i]);
    BelowAt(c, After(c, xs[..i]), m.source);
    BelowAt(m.vector, After(c, xs), m.source);
    var j := SlotFilled(c, ys, m.source, m.Counter());
    assert ys[j] in ys;
    DeliveredIsReady(c, xs, i, pool);
    DeliveredIsReady(c, ys, j, pool);
    ReadyTogether(c, pool, m, ys[j]);
  }

  lemma ReadyTogether(c: Clock, pool: seq<Message>, m: Message, n: Message)
    requires m in pool && n in pool && Claims(n, m.source, m.Counter()) && !Contested(c, pool)
    requires var top := Drain(c, Others(pool, m.source, m.Counter())).clock;
             Deliverable(top, m) && Deliverable(top, n)
    ensures m == n
  {
    hide Drain, Others;
    assert m == n || Contest(c, pool, m, n);
  }

  /** The same clock, the same messages delivered and the same held, copies counted. */
  ghost predicate SameOutcome(f: Endpoint, g: Endpoint) {
    && f.clock == g.clock
    && multiset(Log(f.history)) == multiset(Log(g.history))
    && multiset(f.held) == multiset(g.held)
  }

  /** Confluence: when no slot is contested, in particular when distinct messages have distinct slots, two
      arrival orders also deliver the same messages and hold back the same messages. */
  lemma DeliveryConfluence(e: Endpoint, xs: seq<Message>, ys: seq<Message>)
    requires Settled(e) && HealthFree(xs) && multiset(xs) == multiset(ys)
    requires !Contested(e.clock, e.held + xs)
    ensures SameOutcome(ReceiveAll(e, xs), ReceiveAll(e, ys))
  {
    hide Contested;
    ClockConfluence(e, xs, ys);
    var f, g := ReceiveAll(e, xs), ReceiveAll(e, ys);
    var outX := ReceiveAllEffect(e, xs);
    var outY := ReceiveAllEffect(e, ys);
    var pool := e.held + xs;
    assert multiset(e.held + ys) == multiset(pool);
    EndIsClosed(e.clock, outX, f.held, pool);
    EndIsClosed(e.clock, outY, g.held, pool);
    forall m
      ensures multiset(outX)[m] == multiset(outY)[m]
    {
      OccursOnce(e.clock, outX, m);
      OccursOnce(e.clock, outY, m);
      if m in outX {
        SameSlots(e.clock, outX, outY, pool, m);
      }
      if m in outY {
        SameSlots(e.clock, outY, outX, pool, m);
      }
    }
    assert multiset(outX) == multiset(outY);
    RemainderUnique(multiset(pool), multiset(outX), multiset(f.held), multiset(g.held));
  }

  lemma RemainderUnique(whole: multiset<Message>, out: multiset<Message>,
                        f: multiset<Message>, g: multiset<Message>)
    requires whole == out + f && whole == out + g
    ensures f == g
  {
    forall m
      ensures f[m] == g[m]
    {
      assert (out + f)[m] == (out + g)[m];
    }
  }

  /** A lone ready message is delivered, and by itself. */
  lemma ReadyIsDelivered(e: Endpoint, m: Message)
    requires e.held == [] && !m.Health() && Deliverable(e.clock, m)
    ensures var f := Receive(e, m);
            && Log(f.history) == Log(e.history) + [m] && f.held == [] && f.clock == Advance(e.clock, m)
  {
    assert e.held + [m] == [m];
    var r := Sweep(e.clock, [m]);
    assert [m][1..] == [];
    assert Sweep(Advance(e.clock, m), []) == Outcome(Advance(e.clock, m), [], []);
    assert r == Outcome(Advance(e.clock, m), [], [m]);
    assert Drain(r.clock, r.held) == Outcome(r.clock, [], []);
    LogAppend(e.history, Deliveries([m]));
    LogOfDeliveries([m]);
  }

  /** A lone message that is not ready is held. */
  lemma UnreadyIsHeld(e: Endpoint, m: Message)
    requires e.held == [] && !m.Health() && !Deliverable(e.clock, m)
    ensures var f := Receive(e, m);
            Log(f.history) == Log(e.history) && f.held == [m] && f.clock == e.clock
  {
    assert e.held + [m] == [m];
    assert Sweep(e.clock, [m]) == Outcome(e.clock, [m], []);
    LogAppend(e.history, Deliveries([]));
    LogOfDeliveries([]);
  }

  // ------------------------------------------------------------------
  // A contested slot goes to whoever arrives first
  // ------------------------------------------------------------------

  lemma {:induction false} ReceiveAllAppend(e: Endpoint, xs: seq<Message>, ys: seq<Message>)
    ensures ReceiveAll(e, xs + ys) == ReceiveAll(ReceiveAll(e, xs), ys)
    decreases |xs|
  {
    if xs == [] {
      assert xs + ys == ys;
    } else {
      assert (xs + ys)[1..] == xs[1..] + ys;
      ReceiveAllAppend(Receive(e, xs[0]), xs[1..], ys);
    }
  }

  /** Receiving messages one by one ends at the clock that one drain of all of them ends at. */
  lemma OneDrain(e: Endpoint, ms: seq<Message>)
    requires Settled(e) && HealthFree(ms)
    ensures ReceiveAll(e, ms).clock == Drain(e.clock, e.held + ms).clock
  {
    hide Drain, Closed, CausalChain;
    var pool := e.held + ms;
    var d := Drain(e.clock, pool);
    var out := ReceiveAllEffect(e, ms);
    DrainIsClosed(e.clock, pool);
    FinalClockIsLeast(e, ms, d.clock);
    AfterGrows(e.clock, out);
    ClosedClockDominates(e.clock, d.out, After(e.clock, out), pool);
    forall a
      ensures Lookup(After(e.clock, out), a) == Lookup(d.clock, a)
    {
      BelowAt(After(e.clock, out), d.clock, a);
      BelowAt(d.clock, After(e.clock, out), a);
    }
    SameClock(e.clock, out, d.out);
  }

  /** A message that arrives when it is ready is delivered then. */
  lemma ArrivesReady(f: Endpoint, m: Message, out: seq<Message>)
    requires Quiescent(f.clock, f.held) && Deliverable(f.clock, m)
    requires BatchEffect(f, [m], Receive(f, m), out)
    ensures m in out
  {
    OutOrKept(f.held, m, out, Receive(f, m).held);
  }

  lemma OutOrKept(held: seq<Message>, m: Message, out: seq<Message>, kept: seq<Message>)
    requires multiset(held + [m]) == multiset(out) + multiset(kept)
    ensures out == [] ==> m in kept
    ensures out != [] ==> out[0] in held || out[0] == m
  {
    assert m in multiset(held + [m]);
    if out != [] {
      assert out[0] in multiset(held + [m]);
    }
  }

  /** The first claimant to arrive when ready takes the slot for good. */
  lemma FirstOfSlotWins(f: Endpoint, m: Message, rest: seq<Message>, n: Message)
    requires Settled(f) && HealthFree([m] + rest) && Deliverable(f.clock, m)
    requires !n.Health() && n != m && Claims(n, m.source, m.Counter())
    ensures var g := ReceiveAll(f, [m] + rest);
            && multiset(Log(g.history))[m] > multiset(Log(f.history))[m]
            && multiset(Log(g.history))[n] == multiset(Log(f.history))[n]
  {
    hide Settled, Quiescent;
    var g := Receive(f, m);
    assert [m][1..] == [] && ([m] + rest)[0] == m && ([m] + rest)[1..] == rest;
    assert HealthFree([m]) && HealthFree(rest) by {
      assert m in [m] + rest;
    }
    assert ReceiveAll(f, [m]) == g;
    var first := ReceiveAllEffect(f, [m]);
    assert Deliverable(f.clock, m) && Quiescent(f.clock, f.held) by {
      SettledIsQuiescent(f);
    }
    ArrivesReady(f, m, first);
    var last := ReceiveAllEffect(g, rest);
    var i :| 0 <= i < |first| && first[i] == m;
    CausalChainAt(f.clock, first, i);
    KnownAfter(f.clock, first, i);
    BelowAt(m.vector, g.clock, m.source);
    if n in first {
      var j :| 0 <= j < |first| && first[j] == n;
      SlotUnique(f.clock, first, i, j);
    }
    CausalChainIsChain(g.clock, last);
    StaleNotInChain(g.clock, last, n);
    CountIn(Log(f.history), first, last, m);
    CountIn(Log(f.history), first, last, n);
  }

  lemma SettledIsQuiescent(f: Endpoint)
    requires Settled(f)
    ensures Quiescent(f.clock, f.held)
  {
  }

  lemma CountIn(log: seq<Message>, first: seq<Message>, last: seq<Message>, m: Message)
    ensures m in first ==> multiset(log + first + last)[m] > multiset(log)[m]
    ensures m !in first && m !in last ==> multiset(log + first + last)[m] == multiset(log)[m]
  {
    assert multiset(log + first + last) == multiset(log) + multiset(first) + multiset(last);
    assert m in first <==> m in multiset(first);
    assert m in last <==> m in multiset(last);
  }

  lemma TakeOut(xs: seq<Message>, m: Message) returns (rest: seq<Message>)
    requires m in xs
    ensures multiset(xs) == multiset([m]) + multiset(rest)
  {
    var i :| 0 <= i < |xs| && xs[i] == m;
    rest := xs[..i] + xs[i + 1..];
    assert xs == xs[..i] + [m] + xs[i + 1..];
  }

  lemma SameMembers(xs: seq<Message>, ys: seq<Message>)
    requires multiset(xs) == multiset(ys) && HealthFree(xs)
    ensures HealthFree(ys)
  {
    forall m | m in ys
      ensures m in xs
    {
      assert m in multiset(ys);
    }
  }

  /** Everything else first, then the two claimants in either order. */
  lemma TwoOrders(xs: seq<Message>, m: Message, n: Message) returns (rest: seq<Message>)
    requires m in xs && n in xs && m != n && Claims(n, m.source, m.Counter())
    ensures var others := Others(xs, m.source, m.Counter());
            && multiset(others + ([m] + ([n] + rest))) == multiset(xs)
            && multiset(others + ([n] + ([m] + rest))) == multiset(xs)
  {
    var s, k := m.source, m.Counter();
    OthersMeaning(xs, s, k);
    var most := TakeOut(Claimants(xs, s, k), m);
    assert n in multiset(Claimants(xs, s, k));
    rest := TakeOut(most, n);
    assert multiset(Others(xs, s, k) + ([m] + ([n] + rest)))
        == multiset(Others(xs, s, k)) + multiset([m]) + multiset([n]) + multiset(rest);
    assert multiset(Others(xs, s, k) + ([n] + ([m] + rest)))
        == multiset(Others(xs, s, k)) + multiset([m]) + multiset([n]) + multiset(rest);
  }

  lemma ContestDecides(e: Endpoint, xs: seq<Message>, m: Message, n: Message)
    returns (ys: seq<Message>, zs: seq<Message>)
    requires Settled(e) && e.held == [] && HealthFree(xs) && Contest(e.clock, xs, m, n)
    ensures multiset(ys) == multiset(xs) && multiset(zs) == multiset(xs)
    ensures multiset(Log(ReceiveAll(e, ys).history))[m] != multiset(Log(ReceiveAll(e, zs).history))[m]
  {
    hide Settled, Drain, Others, Quiescent;
    var others := Others(xs, m.source, m.Counter());
    var rest := TwoOrders(xs, m, n);
    var mn, nm := [m] + ([n] + rest), [n] + ([m] + rest);
    ys, zs := others + mn, others + nm;
    SameMembers(xs, ys);
    SameMembers(xs, zs);
    assert HealthFree(others) && HealthFree(mn) && HealthFree(nm);
    var f := ReceiveAll(e, others);
    var _ := ReceiveAllEffect(e, others);
    OneDrain(e, others);
    assert e.held + others == others;
    ReceiveAllAppend(e, others, mn);
    ReceiveAllAppend(e, others, nm);
    FirstOfSlotWins(f, m, [n] + rest, n);
    FirstOfSlotWins(f, n, [m] + rest, m);
  }

  ghost predicate OrderIrrelevant(e: Endpoint, xs: seq<Message>) {
    forall ys | multiset(ys) == multiset(xs) :: SameOutcome(ReceiveAll(e, xs), ReceiveAll(e, ys))
  }

  /** Exactly when the order of arrival is irrelevant, for an endpoint with an empty queue: all orders of the
      same causal messages end alike if and only if no slot is contested. */
  lemma OrderIrrelevantIff(e: Endpoint, xs: seq<Message>)
    requires e.held == [] && HealthFree(xs)
    ensures OrderIrrelevant(e, xs) <==> !Contested(e.clock, xs)
  {
    hide Contest, Settled, SameOutcome;
    assert Settled(e) by {
      NothingHeldIsSettled(e);
    }
    assert e.held + xs == xs;
    if !Contested(e.clock, xs) {
      forall ys | multiset(ys) == multiset(xs)
        ensures SameOutcome(ReceiveAll(e, xs), ReceiveAll(e, ys))
      {
        DeliveryConfluence(e, xs, ys);
      }
    } else {
      var m, n :| Contest(e.clock, xs, m, n);
      var ys, zs := ContestDecides(e, xs, m, n);
      OutcomesDiffer(ReceiveAll(e, xs), ReceiveAll(e, ys), ReceiveAll(e, zs), m);
    }
  }

  lemma NothingHeldIsSettled(e: Endpoint)
    requires e.held == []
    ensures Settled(e)
  {
  }

  lemma OutcomesDiffer(f: Endpoint, g: Endpoint, h: Endpoint, m: Message)
    requires multiset(Log(g.history))[m] != multiset(Log(h.history))[m]
    ensures !SameOutcome(f, g) || !SameOutcome(f, h)
  {
  }
}
