/** Vector clocks and the broadcast messages that carry them
    (gaia_server/ipc/causal_broadcast.py). */
module VectorClocks {

  type Actor = string

  /** The vector a message carries. Inbound messages are arbitrary, so entries may be any integer. */
  type Vector = map<Actor, int>

  /** The clock an endpoint keeps: it starts at 0 and is only ever raised. */
  type Clock = map<Actor, nat>

  const HEALTH := "health"

  datatype Message = Message(id: string, source: Actor, kind: string, vector: Vector) {

    /** Every kind other than health takes the causal route, known to the source or not. */
    predicate Health() {
      kind == HEALTH
    }

    /** The sender's own entry: the position of this message among the sender's messages. */
    function Counter(): int {
      Lookup(vector, source)
    }
  }

  /** A missing entry counts as 0. */
  function Lookup(v: Vector, a: Actor): int {
    if a in v then v[a] else 0
  }

  function Max(x: int, y: int): int {
    if x >= y then x else y
  }

  /** Next expected from its sender, and nothing else it depends on is unknown here. */
  predicate Deliverable(c: Clock, m: Message) {
    && m.Counter() == Lookup(c, m.source) + 1
    && forall a | a in m.vector && a != m.source :: m.vector[a] <= Lookup(c, a)
  }

  /** The clock after a delivery: only the sender's entry is touched. */
  function Advance(c: Clock, m: Message): Clock {
    c[m.source := Max(Lookup(c, m.source), m.Counter())]
  }

  /** The textbook update: the pointwise maximum with the whole vector. */
  function Merge(c: Clock, v: Vector): Clock {
    map a | a in c.Keys + v.Keys :: Max(Lookup(c, a), Lookup(v, a))
  }

  /** Pointwise order on vectors. */
  ghost predicate Below(v: Vector, w: Vector) {
    forall a :: Lookup(v, a) <= Lookup(w, a)
  }

  lemma BelowTransitive(u: Vector, v: Vector, w: Vector)
    requires Below(u, v) && Below(v, w)
    ensures Below(u, w)
  {
  }

  lemma BelowAt(v: Vector, w: Vector, a: Actor)
    requires Below(v, w)
    ensures Lookup(v, a) <= Lookup(w, a)
  {
  }

  /** Two vectors that answer every lookup alike. */
  ghost predicate SameKnowledge(v: Vector, w: Vector) {
    forall a :: Lookup(v, a) == Lookup(w, a)
  }

  ghost predicate HealthFree(ms: seq<Message>) {
    forall m | m in ms :: !m.Health()
  }

  /** Advancing raises the sender's entry and keeps the others. */
  lemma AdvanceLookup(c: Clock, m: Message, a: Actor)
    ensures Lookup(Advance(c, m), a) ==
            if a == m.source then Max(Lookup(c, a), m.Counter()) else Lookup(c, a)
    ensures Lookup(c, a) <= Lookup(Advance(c, m), a)
  {
  }

  lemma MergeLookup(c: Clock, v: Vector, a: Actor)
    ensures Lookup(Merge(c, v), a) == Max(Lookup(c, a), Lookup(v, a))
  {
  }

  /** The one-entry update is the full merge exactly when no other entry of the message is news here,
      which is the second half of the deliverability test. */
  lemma CheapUpdateIsMergeIff(c: Clock, m: Message)
    ensures SameKnowledge(Advance(c, m), Merge(c, m.vector))
            <==> forall a | a in m.vector && a != m.source :: m.vector[a] <= Lookup(c, a)
  {
    forall a
      ensures Lookup(Merge(c, m.vector), a) == Max(Lookup(c, a), Lookup(m.vector, a))
    {
      MergeLookup(c, m.vector, a);
    }
    if SameKnowledge(Advance(c, m), Merge(c, m.vector)) {
      forall a | a in m.vector && a != m.source
        ensures m.vector[a] <= Lookup(c, a)
      {
        AdvanceLookup(c, m, a);
        MergeLookup(c, m.vector, a);
      }
    }
  }

  /** What the test decides: the message is its sender's next one, and delivering it the cheap way loses
      nothing of what it knows. */
  lemma DeliverableIff(c: Clock, m: Message)
    ensures Deliverable(c, m) <==>
            && m.Counter() == Lookup(c, m.source) + 1
            && SameKnowledge(Advance(c, m), Merge(c, m.vector))
  {
    hide Advance, Merge, SameKnowledge;
    CheapUpdateIsMergeIff(c, m);
  }

  lemma MergeRespects(c: Clock, d: Clock, v: Vector)
    requires SameKnowledge(c, d)
    ensures SameKnowledge(Merge(c, v), Merge(d, v))
  {
  }
}
