/** Sequences of messages in which each one may be delivered when its turn comes.

    An endpoint's sends and deliveries form such a chain, and so does the order in which a whole
    network sends: everything proved here holds of both. */
module DeliveryChains {
  import opened VectorClocks

  /** Health messages skip the causal test (causal_broadcast.py:87-90). */
  predicate Admissible(c: Clock, m: Message) {
    m.Health() || Deliverable(c, m)
  }

  /** The causal test with "at most" for "exactly" in its first half: nothing the message claims to know is
      news here except the message itself. A message delivered again, or come back to its sender, is due. */
  predicate Due(c: Clock, m: Message) {
    && m.Counter() <= Lookup(c, m.source) + 1
    && forall a | a in m.vector && a != m.source :: m.vector[a] <= Lookup(c, a)
  }

  /** Every message is admissible at the clock its predecessors left. */
  predicate Chain(c: Clock, ms: seq<Message>)
    decreases |ms|
  {
    ms == [] || (Admissible(c, ms[0]) && Chain(Advance(c, ms[0]), ms[1..]))
  }

  /** The strict form: every message passes the deliverability test, health or not. */
  predicate CausalChain(c: Clock, ms: seq<Message>)
    decreases |ms|
  {
    ms == [] || (Deliverable(c, ms[0]) && CausalChain(Advance(c, ms[0]), ms[1..]))
  }

  /** The clock after all of `ms` were delivered. */
  function After(c: Clock, ms: seq<Message>): Clock
    decreases |ms|
  {
    if ms == [] then c else After(Advance(c, ms[0]), ms[1..])
  }

  function MergeAll(c: Clock, ms: seq<Message>): Clock
    decreases |ms|
  {
    if ms == [] then c else MergeAll(Merge(c, ms[0].vector), ms[1..])
  }

  /** The counters of the messages from `s`, in order. */
  function Counters(ms: seq<Message>, s: Actor): seq<int> {
    if ms == [] then []
    else (if ms[0].source == s then [ms[0].Counter()] else []) + Counters(ms[1..], s)
  }

  lemma {:induction false} AfterAppend(c: Clock, ms: seq<Message>, ns: seq<Message>)
    ensures After(c, ms + ns) == After(After(c, ms), ns)
    decreases |ms|
  {
    if ms == [] {
      assert ms + ns == ns;
    } else {
      assert (ms + ns)[1..] == ms[1..] + ns;
      AfterAppend(Advance(c, ms[0]), ms[1..], ns);
    }
  }

  lemma {:induction false} ChainAppend(c: Clock, ms: seq<Message>, ns: seq<Message>)
    ensures Chain(c, ms + ns) <==> Chain(c, ms) && Chain(After(c, ms), ns)
    decreases |ms|
  {
    if ms == [] {
      assert ms + ns == ns;
    } else {
      assert (ms + ns)[1..] == ms[1..] + ns;
      ChainAppend(Advance(c, ms[0]), ms[1..], ns);
    }
  }

  lemma {:induction false} CausalChainIsChain(c: Clock, ms: seq<Message>)
    requires CausalChain(c, ms)
    ensures Chain(c, ms)
    decreases |ms|
  {
    if ms != [] {
      CausalChainIsChain(Advance(c, ms[0]), ms[1..]);
    }
  }

  lemma {:induction false} CausalChainAppend(c: Clock, ms: seq<Message>, ns: seq<Message>)
    ensures CausalChain(c, ms + ns) <==> CausalChain(c, ms) && CausalChain(After(c, ms), ns)
    decreases |ms|
  {
    if ms == [] {
      assert ms + ns == ns;
    } else {
      assert (ms + ns)[1..] == ms[1..] + ns;
      CausalChainAppend(Advance(c, ms[0]), ms[1..], ns);
    }
  }

  /** A chain is causal when each of its health messages passes the test anyway. */
  lemma {:induction false} ChainIsCausal(c: Clock, ms: seq<Message>)
    requires Chain(c, ms)
    requires forall i | 0 <= i < |ms| && ms[i].Health() :: Deliverable(After(c, ms[..i]), ms[i])
    ensures CausalChain(c, ms)
    decreases |ms|
  {
    if ms != [] {
      var rest := ms[1..];
      assert ms[..0] == [];
      forall i | 0 <= i < |rest| && rest[i].Health()
        ensures Deliverable(After(Advance(c, ms[0]), rest[..i]), rest[i])
      {
        assert ms[..i + 1] == [ms[0]] + rest[..i];
        assert ms[i + 1] == rest[i];
      }
      ChainIsCausal(Advance(c, ms[0]), rest);
    }
  }

  lemma Associative(xs: seq<int>, ys: seq<int>, zs: seq<int>)
    ensures xs + (ys + zs) == xs + ys + zs
  {
  }

  lemma {:induction false} CountersAppend(ms: seq<Message>, ns: seq<Message>, s: Actor)
    ensures Counters(ms + ns, s) == Counters(ms, s) + Counters(ns, s)
  {
    if ms == [] {
      assert ms + ns == ns;
    } else {
      CountersAppend(ms[1..], ns, s);
      assert (ms + ns)[0] == ms[0] && (ms + ns)[1..] == ms[1..] + ns;
      Associative(if ms[0].source == s then [ms[0].Counter()] else [], Counters(ms[1..], s), Counters(ns, s));
    }
  }

  /** Clocks never decrease along any sequence of deliveries. */
  lemma {:induction false} AfterGrows(c: Clock, ms: seq<Message>)
    ensures Below(c, After(c, ms))
    decreases |ms|
  {
    if ms != [] {
      AfterGrows(Advance(c, ms[0]), ms[1..]);
      forall a
        ensures Lookup(c, a) <= Lookup(After(c, ms), a)
      {
        assert Lookup(c, a) <= Lookup(Advance(c, ms[0]), a);
      }
    }
  }

  lemma PrefixGrows(c: Clock, ms: seq<Message>, i: nat, j: nat)
    requires i <= j <= |ms|
    ensures Below(After(c, ms[..i]), After(c, ms[..j]))
  {
    assert ms[..j] == ms[..i] + ms[i..j];
    AfterAppend(c, ms[..i], ms[i..j]);
    AfterGrows(After(c, ms[..i]), ms[i..j]);
  }

  // ------------------------------------------------------------------
  // Any sequence of deliveries, a chain or not
  // ------------------------------------------------------------------

  lemma AfterSnoc(c: Clock, ms: seq<Message>, i: nat)
    requires i < |ms|
    ensures After(c, ms[..i + 1]) == Advance(After(c, ms[..i]), ms[i])
  {
    assert ms[..i + 1] == ms[..i] + [ms[i]];
    AfterAppend(c, ms[..i], [ms[i]]);
  }

  /** A counter is known from its delivery on. */
  lemma CounterKnown(c: Clock, ms: seq<Message>, i: nat, j: nat)
    requires i < j <= |ms|
    ensures ms[i].Counter() <= Lookup(After(c, ms[..j]), ms[i].source)
  {
    hide After;
    AfterSnoc(c, ms, i);
    AdvanceLookup(After(c, ms[..i]), ms[i], ms[i].source);
    PrefixGrows(c, ms, i + 1, j);
    BelowAt(After(c, ms[..i + 1]), After(c, ms[..j]), ms[i].source);
  }

  /** An entry that ends at or above `k` was carried over it by one delivery. */
  lemma {:induction false} Crossing(c: Clock, ms: seq<Message>, s: Actor, k: int) returns (i: nat)
    requires Lookup(c, s) < k <= Lookup(After(c, ms), s)
    ensures i < |ms| && ms[i].source == s
    ensures Lookup(After(c, ms[..i]), s) < k <= ms[i].Counter()
    decreases |ms|
  {
    var d, rest := Advance(c, ms[0]), ms[1..];
    AdvanceLookup(c, ms[0], s);
    if Lookup(d, s) >= k {
      i := 0;
      assert ms[..0] == [];
    } else {
      var j := Crossing(d, rest, s, k);
      i := j + 1;
      assert ms[..i][1..] == rest[..j];
    }
  }

  /** An entry that rose holds the counter of some message delivered. */
  lemma Attained(c: Clock, ms: seq<Message>, s: Actor) returns (i: nat)
    requires Lookup(c, s) < Lookup(After(c, ms), s)
    ensures i < |ms| && ms[i].source == s && ms[i].Counter() == Lookup(After(c, ms), s)
  {
    i := Crossing(c, ms, s, Lookup(After(c, ms), s));
    CounterKnown(c, ms, i, |ms|);
    assert ms[..|ms|] == ms;
  }

  /** Where no message from `s` came more than one ahead, every counter up to the clock was delivered. */
  lemma DueSlotFilled(c: Clock, ms: seq<Message>, s: Actor, k: int) returns (i: nat)
    requires Lookup(c, s) < k <= Lookup(After(c, ms), s)
    requires forall x | 0 <= x < |ms| && ms[x].source == s :: ms[x].Counter() <= Lookup(After(c, ms[..x]), s) + 1
    ensures i < |ms| && ms[i].source == s && ms[i].Counter() == k
  {
    i := Crossing(c, ms, s, k);
  }

  /** A message that was due leaves nothing in its vector unknown. */
  lemma DueKnown(c: Clock, ms: seq<Message>, i: nat, j: nat)
    requires i < j <= |ms| && Due(After(c, ms[..i]), ms[i])
    ensures Below(ms[i].vector, After(c, ms[..j]))
  {
    hide After;
    CounterKnown(c, ms, i, j);
    PrefixGrows(c, ms, i, j);
    forall a
      ensures Lookup(ms[i].vector, a) <= Lookup(After(c, ms[..j]), a)
    {
      BelowAt(After(c, ms[..i]), After(c, ms[..j]), a);
    }
  }

  // ------------------------------------------------------------------
  // Chains
  // ------------------------------------------------------------------

  /** What a chain says of its i-th message. */
  lemma ChainAt(c: Clock, ms: seq<Message>, i: nat)
    requires Chain(c, ms) && i < |ms|
    ensures Chain(c, ms[..i])
    ensures Admissible(After(c, ms[..i]), ms[i])
    ensures After(c, ms[..i + 1]) == Advance(After(c, ms[..i]), ms[i])
  {
    assert ms == ms[..i] + ms[i..];
    ChainAppend(c, ms[..i], ms[i..]);
    AfterSnoc(c, ms, i);
  }

  /** A message that passed the test fills the next free slot of its sender, and its whole vector is
      known from then on. */
  lemma KnownAfter(c: Clock, ms: seq<Message>, i: nat)
    requires i < |ms| && Deliverable(After(c, ms[..i]), ms[i])
    ensures ms[i].Counter() == Lookup(After(c, ms[..i]), ms[i].source) + 1
    ensures ms[i].Counter() == Lookup(After(c, ms[..i + 1]), ms[i].source)
    ensures forall a | a != ms[i].source :: Lookup(ms[i].vector, a) <= Lookup(After(c, ms[..i]), a)
    ensures Below(ms[i].vector, After(c, ms[..i + 1]))
    ensures Below(ms[i].vector, After(c, ms))
  {
    hide After;
    AfterSnoc(c, ms, i);
    AdvanceLookup(After(c, ms[..i]), ms[i], ms[i].source);
    DueKnown(c, ms, i, i + 1);
    DueKnown(c, ms, i, |ms|);
    assert ms[..|ms|] == ms;
  }

  lemma CausalChainAt(c: Clock, ms: seq<Message>, i: nat)
    requires CausalChain(c, ms) && i < |ms|
    ensures Deliverable(After(c, ms[..i]), ms[i])
    ensures CausalChain(c, ms[..i])
  {
    assert ms == ms[..i] + ms[i..];
    CausalChainAppend(c, ms[..i], ms[i..]);
  }

  /** No inversion: what an earlier message of the chain already reflects is never delivered later.
      For two messages of one sender this says that counters rise and nothing comes twice. */
  lemma NoInversion(c: Clock, ms: seq<Message>, i: nat, j: nat)
    requires i < j < |ms|
    requires Deliverable(After(c, ms[..i]), ms[i]) && Deliverable(After(c, ms[..j]), ms[j])
    ensures Lookup(ms[i].vector, ms[j].source) < ms[j].Counter()
    ensures ms[i] != ms[j]
  {
    KnownAfter(c, ms, i);
    KnownAfter(c, ms, j);
    PrefixGrows(c, ms, i + 1, j);
    assert Lookup(ms[i].vector, ms[j].source) <= Lookup(After(c, ms[..i + 1]), ms[j].source);
  }

  /** The counters from one sender are exactly the next consecutive numbers. */
  lemma {:induction false} CountersConsecutive(c: Clock, ms: seq<Message>, s: Actor)
    requires CausalChain(c, ms)
    ensures |Counters(ms, s)| == Lookup(After(c, ms), s) - Lookup(c, s)
    ensures forall k | 0 <= k < |Counters(ms, s)| :: Counters(ms, s)[k] == Lookup(c, s) + 1 + k
    decreases |ms|
  {
    if ms != [] {
      AdvanceLookup(c, ms[0], s);
      CountersConsecutive(Advance(c, ms[0]), ms[1..], s);
    }
  }

  /** Every counter up to the final clock belongs to some message of the chain. */
  lemma {:induction false} SlotFilled(c: Clock, ms: seq<Message>, s: Actor, k: int) returns (i: nat)
    requires CausalChain(c, ms)
    requires Lookup(c, s) < k <= Lookup(After(c, ms), s)
    ensures i < |ms| && ms[i].source == s && ms[i].Counter() == k
    decreases |ms|
  {
    AdvanceLookup(c, ms[0], s);
    if ms[0].source == s && ms[0].Counter() == k {
      i := 0;
    } else {
      var j := SlotFilled(Advance(c, ms[0]), ms[1..], s, k);
      i := j + 1;
    }
  }

  /** A slot is filled at most once. */
  lemma SlotUnique(c: Clock, ms: seq<Message>, i: nat, j: nat)
    requires CausalChain(c, ms) && i < |ms| && j < |ms|
    requires ms[i].source == ms[j].source && ms[i].Counter() == ms[j].Counter()
    ensures i == j
  {
    CausalChainAt(c, ms, i);
    CausalChainAt(c, ms, j);
    if i < j {
      NoInversion(c, ms, i, j);
    } else if j < i {
      NoInversion(c, ms, j, i);
    }
  }

  /** In a causal chain the cheap update loses nothing against full merging. */
  lemma {:induction false} CheapRunIsMergeRun(c: Clock, d: Clock, ms: seq<Message>)
    requires CausalChain(c, ms) && SameKnowledge(c, d)
    ensures SameKnowledge(After(c, ms), MergeAll(d, ms))
    decreases |ms|
  {
    if ms != [] {
      CheapUpdateIsMergeIff(c, ms[0]);
      MergeRespects(c, d, ms[0].vector);
      CheapRunIsMergeRun(Advance(c, ms[0]), Merge(d, ms[0].vector), ms[1..]);
    }
  }

  /** A message whose slot is already passed does not occur in a later chain. */
  lemma StaleNotInChain(c: Clock, ms: seq<Message>, m: Message)
    requires Chain(c, ms) && !m.Health() && m.Counter() <= Lookup(c, m.source)
    ensures m !in ms
  {
    if m in ms {
      var i :| 0 <= i < |ms| && ms[i] == m;
      ChainAt(c, ms, i);
      AfterGrows(c, ms[..i]);
    }
  }

  /** No message of `pool` can be delivered at this clock. */
  ghost predicate Closed(c: Clock, pool: seq<Message>) {
    forall m | m in pool :: !Deliverable(c, m)
  }

  /** A clock above one at which a message is deliverable has counted it or finds it deliverable too. */
  lemma RaisedOrNext(c: Clock, top: Clock, m: Message)
    requires Deliverable(c, m) && Below(c, top)
    ensures m.Counter() <= Lookup(top, m.source) || Deliverable(top, m)
  {
    BelowAt(c, top, m.source);
    forall a | a in m.vector && a != m.source
      ensures m.vector[a] <= Lookup(top, a)
    {
      BelowAt(c, top, a);
    }
  }

  /** The heart of confluence and completeness: a clock at which nothing of the pool is deliverable
      lies above every clock that causal chains of pool messages can reach from below it. */
  lemma {:induction false} ClosedClockDominates(c: Clock, ms: seq<Message>, top: Clock, pool: seq<Message>)
    requires CausalChain(c, ms)
    requires forall m | m in ms :: m in pool
    requires Below(c, top) && Closed(top, pool)
    ensures Below(After(c, ms), top)
    decreases |ms|
  {
    if ms != [] {
      var m := ms[0];
      assert m in ms && m in pool;
      RaisedOrNext(c, top, m);
      forall a
        ensures Lookup(Advance(c, m), a) <= Lookup(top, a)
      {
        AdvanceLookup(c, m, a);
      }
      forall n | n in ms[1..]
        ensures n in ms && n in pool
      {
      }
      ClosedClockDominates(Advance(c, m), ms[1..], top, pool);
    }
  }
}
