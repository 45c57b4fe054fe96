/** In which order a drain delivers: round after round over the queue, front to back
    (causal_broadcast.py:126-139). */
module DeliveryOrder {
  import opened VectorClocks
  import opened DeliveryChains
  import opened HoldQueues
  import opened Endpoints

  /** The messages of a queue that a round takes, and those it leaves, in queue order. */
  function Taken(queue: seq<Message>, marks: seq<bool>): seq<Message>
    requires |marks| == |queue|
  {
    if queue == [] then [] else (if marks[0] then [queue[0]] else []) + Taken(queue[1..], marks[1..])
  }

  function Left(queue: seq<Message>, marks: seq<bool>): seq<Message>
    requires |marks| == |queue|
  {
    if queue == [] then [] else (if marks[0] then [] else [queue[0]]) + Left(queue[1..], marks[1..])
  }

  /** The clock at which a round that began at `c` comes to place `p`. */
  function ClockAtPlace(c: Clock, queue: seq<Message>, marks: seq<bool>, p: nat): Clock
    requires |marks| == |queue| && p <= |queue|
  {
    After(c, Taken(queue[..p], marks[..p]))
  }

  /** A round takes a message exactly if it is deliverable at the moment the round comes to it. */
  ghost predicate Round(c: Clock, queue: seq<Message>, marks: seq<bool>) {
    && |marks| == |queue|
    && forall p | 0 <= p < |queue| :: marks[p] <==> Deliverable(ClockAtPlace(c, queue, marks, p), queue[p])
  }

  /** Rounds that each take something, each over what the one before left and at the clock it left, until a
      round would take nothing; `out` is what they take, in order, and `kept` what is left in the end. */
  ghost predicate Rounds(c: Clock, queue: seq<Message>, rounds: seq<seq<bool>>, out: seq<Message>, kept: seq<Message>)
    decreases |rounds|
  {
    if rounds == [] then out == [] && kept == queue && forall m | m in queue :: !Deliverable(c, m)
    else
      && Round(c, queue, rounds[0]) && true in rounds[0]
      && var taken := Taken(queue, rounds[0]);
         && taken <= out
         && Rounds(After(c, taken), Left(queue, rounds[0]), rounds[1..], out[|taken|..], kept)
  }

  // ------------------------------------------------------------------
  // A sweep is a round
  // ------------------------------------------------------------------

  lemma TakenSoFar(queue: seq<Message>, marks: seq<bool>, p: nat)
    requires |marks| == |queue| && 0 < p <= |queue|
    ensures Taken(queue[..p], marks[..p]) ==
            (if marks[0] then [queue[0]] else []) + Taken(queue[1..][..p - 1], marks[1..][..p - 1])
  {
    assert queue[..p][1..] == queue[1..][..p - 1] && marks[..p][1..] == marks[1..][..p - 1];
  }

  lemma RoundCons(c: Clock, queue: seq<Message>, marks: seq<bool>)
    requires queue != [] && |marks| == |queue| && (marks[0] <==> Deliverable(c, queue[0]))
    requires Round(if marks[0] then Advance(c, queue[0]) else c, queue[1..], marks[1..])
    ensures Round(c, queue, marks)
  {
    var d := if marks[0] then Advance(c, queue[0]) else c;
    forall p | 0 <= p < |queue|
      ensures marks[p] <==> Deliverable(ClockAtPlace(c, queue, marks, p), queue[p])
    {
      if p == 0 {
        assert queue[..0] == [] && marks[..0] == [];
      } else {
        TakenSoFar(queue, marks, p);
        var rest := Taken(queue[1..][..p - 1], marks[1..][..p - 1]);
        assert ([queue[0]] + rest)[1..] == rest && [] + rest == rest;
        assert ClockAtPlace(c, queue, marks, p) == ClockAtPlace(d, queue[1..], marks[1..], p - 1);
        assert marks[1..][p - 1] == marks[p] && queue[1..][p - 1] == queue[p];
      }
    }
  }

  lemma {:induction false} SweepIsRound(c: Clock, queue: seq<Message>) returns (marks: seq<bool>)
    ensures Round(c, queue, marks)
    ensures Sweep(c, queue) == Outcome(After(c, Taken(queue, marks)), Left(queue, marks), Taken(queue, marks))
    decreases |queue|
  {
    if queue == [] {
      marks := [];
    } else {
      hide Round, Deliverable, Advance;
      var ready := Deliverable(c, queue[0]);
      var d := if ready then Advance(c, queue[0]) else c;
      var rest := SweepIsRound(d, queue[1..]);
      RoundLength(d, queue[1..], rest);
      marks := [ready] + rest;
      assert marks[1..] == rest;
      RoundCons(c, queue, marks);
      TakenCons(c, queue, ready, rest);
    }
  }

  lemma TakenCons(c: Clock, queue: seq<Message>, ready: bool, rest: seq<bool>)
    requires queue != [] && |rest| == |queue| - 1
    ensures Taken(queue, [ready] + rest) == (if ready then [queue[0]] else []) + Taken(queue[1..], rest)
    ensures Left(queue, [ready] + rest) == (if ready then [] else [queue[0]]) + Left(queue[1..], rest)
    ensures After(c, Taken(queue, [ready] + rest)) ==
            After(if ready then Advance(c, queue[0]) else c, Taken(queue[1..], rest))
  {
    assert ([ready] + rest)[1..] == rest;
    var tail := Taken(queue[1..], rest);
    assert ([queue[0]] + tail)[1..] == tail && [] + tail == tail;
  }

  lemma RoundLength(c: Clock, queue: seq<Message>, marks: seq<bool>)
    requires Round(c, queue, marks)
    ensures |marks| == |queue|
  {
  }

  lemma {:induction false} TakenNothing(queue: seq<Message>, marks: seq<bool>)
    requires |marks| == |queue|
    ensures Taken(queue, marks) == [] <==> true !in marks
    ensures Taken(queue, marks) == [] ==> Left(queue, marks) == queue
    ensures |Left(queue, marks)| + |Taken(queue, marks)| == |queue|
    ensures forall m | m in Taken(queue, marks) :: m in queue
  {
    if queue != [] {
      assert queue == [queue[0]] + queue[1..] && marks == [marks[0]] + marks[1..];
      TakenNothing(queue[1..], marks[1..]);
    }
  }

  // ------------------------------------------------------------------
  // A drain is rounds
  // ------------------------------------------------------------------

  lemma {:induction false} DrainInRounds(c: Clock, queue: seq<Message>) returns (rounds: seq<seq<bool>>)
    ensures Rounds(c, queue, rounds, Drain(c, queue).out, Drain(c, queue).held)
    decreases |queue|
  {
    hide Round;
    var marks := SweepIsRound(c, queue);
    RoundLength(c, queue, marks);
    TakenNothing(queue, marks);
    if Taken(queue, marks) == [] {
      rounds := [];
      EmptySweepIsQuiescent(c, queue);
    } else {
      var taken, left := Taken(queue, marks), Left(queue, marks);
      var d := Drain(After(c, taken), left);
      var more := DrainInRounds(After(c, taken), left);
      rounds := [marks] + more;
      assert rounds[1..] == more;
      assert (taken + d.out)[|taken|..] == d.out;
    }
  }

  /** What one receive of a message that is not health does, in full: the newcomer goes behind what is held,
      and the queue is gone through in rounds until a round would take nothing. What is taken is logged in
      that order, and the rest stays held in queue order. */
  lemma ReceiveInRounds(e: Endpoint, m: Message) returns (rounds: seq<seq<bool>>, out: seq<Message>)
    requires m.kind != "health"
    ensures var f := Receive(e, m);
            && Rounds(e.clock, e.held + [m], rounds, out, f.held)
            && Log(f.history) == Log(e.history) + out && f.clock == After(e.clock, out)
  {
    var queue := e.held + [m];
    out := Drain(e.clock, queue).out;
    rounds := DrainInRounds(e.clock, queue);
    DrainMeaning(e.clock, queue);
    LogAppend(e.history, Deliveries(out));
    LogOfDeliveries(out);
  }

  /** A health message, and no other, is delivered at once: nothing held moves, and its sender's entry alone
      may rise, to the counter that it carries. */
  lemma HealthGoesThrough(e: Endpoint, m: Message)
    requires m.kind == "health"
    ensures var f := Receive(e, m);
            && Log(f.history) == Log(e.history) + [m] && f.held == e.held
            && forall a :: Lookup(f.clock, a) ==
                 if a == m.source && Lookup(m.vector, a) > Lookup(e.clock, a) then Lookup(m.vector, a)
                 else Lookup(e.clock, a)
  {
    LogAppend(e.history, [Delivered(m)]);
    assert Log([Delivered(m)]) == [m];
  }

  // ------------------------------------------------------------------
  // What that means for two messages
  // ------------------------------------------------------------------

  /** A message that is deliverable and is delivered in a later place of the same chain stays deliverable
      until then. */
  lemma StaysDeliverable(c: Clock, out: seq<Message>, k: nat, i: nat)
    requires k <= i < |out| && Deliverable(c, out[i]) && Deliverable(After(c, out[..i]), out[i])
    ensures Deliverable(After(c, out[..k]), out[i])
  {
    assert out[..0] == [];
    var m := out[i];
    PrefixGrows(c, out, 0, k);
    PrefixGrows(c, out, k, i);
    BelowAt(c, After(c, out[..k]), m.source);
    BelowAt(After(c, out[..k]), After(c, out[..i]), m.source);
    forall a | a in m.vector && a != m.source
      ensures m.vector[a] <= Lookup(After(c, out[..k]), a)
    {
      BelowAt(c, After(c, out[..k]), a);
    }
  }

  lemma {:induction false} TakenSplits(queue: seq<Message>, marks: seq<bool>, p: nat)
    requires |marks| == |queue| && p <= |queue|
    ensures Taken(queue, marks) == Taken(queue[..p], marks[..p]) + Taken(queue[p..], marks[p..])
    decreases |queue|
  {
    if p == 0 {
      assert queue[..0] == [] && marks[..0] == [] && queue[0..] == queue && marks[0..] == marks;
    } else {
      TakenSplits(queue[1..], marks[1..], p - 1);
      TakenSoFar(queue, marks, p);
      assert queue[1..][p - 1..] == queue[p..] && marks[1..][p - 1..] == marks[p..];
    }
  }

  lemma TakenOneMore(queue: seq<Message>, marks: seq<bool>, i: nat)
    requires |marks| == |queue| && i < |queue|
    ensures Taken(queue[..i + 1], marks[..i + 1]) ==
            Taken(queue[..i], marks[..i]) + if marks[i] then [queue[i]] else []
    ensures Taken(queue[..i], marks[..i]) <= Taken(queue, marks)
  {
    TakenSplits(queue, marks, i);
    TakenSplits(queue[..i + 1], marks[..i + 1], i);
    assert queue[..i + 1][..i] == queue[..i] && marks[..i + 1][..i] == marks[..i];
    assert queue[..i + 1][i..] == [queue[i]] && marks[..i + 1][i..] == [marks[i]];
    assert Taken([queue[i]], [marks[i]]) == if marks[i] then [queue[i]] else [];
  }

  /** A message ready when the drain starts is taken by the time the first round has passed it, if it is
      delivered at all. */
  lemma ReadyIsTaken(c: Clock, queue: seq<Message>, marks: seq<bool>, out: seq<Message>, i: nat)
    requires Round(c, queue, marks) && Taken(queue, marks) <= out && CausalChain(c, out)
    requires i < |queue| && queue[i] in out && Deliverable(c, queue[i])
    ensures queue[i] in Taken(queue[..i + 1], marks[..i + 1])
  {
    hide Taken, After, CausalChain, Deliverable;
    var soFar := Taken(queue[..i], marks[..i]);
    TakenOneMore(queue, marks, i);
    if queue[i] !in soFar {
      var n :| 0 <= n < |out| && out[n] == queue[i];
      assert out[..|soFar|] == soFar;
      assert n >= |soFar|;
      CausalChainAt(c, out, n);
      StaysDeliverable(c, out, |soFar|, n);
    }
  }

  lemma DrainIsCausal(c: Clock, queue: seq<Message>)
    ensures CausalChain(c, Drain(c, queue).out)
  {
    DrainMeaning(c, queue);
  }

  lemma DrainKeepsReadyOrder(c: Clock, queue: seq<Message>, i: nat, y: Message) returns (k: nat, l: nat)
    requires i < |queue| && Deliverable(c, queue[i]) && y !in queue[..i + 1]
    requires queue[i] in Drain(c, queue).out && y in Drain(c, queue).out
    ensures k < l < |Drain(c, queue).out| && Drain(c, queue).out[k] == queue[i] && Drain(c, queue).out[l] == y
  {
    hide Round, Deliverable, After, CausalChain;
    var out := Drain(c, queue).out;
    DrainIsCausal(c, queue);
    var marks := SweepIsRound(c, queue);
    RoundLength(c, queue, marks);
    hide Drain;
    ReadyIsTaken(c, queue, marks, out, i);
    TakenSplits(queue, marks, i + 1);
    TakenNothing(queue[..i + 1], marks[..i + 1]);
    var head := Taken(queue[..i + 1], marks[..i + 1]);
    k, l := BeforeTheRest(head, out, queue[i], y);
  }

  lemma BeforeTheRest(head: seq<Message>, out: seq<Message>, x: Message, y: Message) returns (k: nat, l: nat)
    requires head <= out && x in head && y in out && y !in head
    ensures k < l < |out| && out[k] == x && out[l] == y
  {
    k :| 0 <= k < |head| && head[k] == x;
    l :| 0 <= l < |out| && out[l] == y;
  }

  /** Of two messages that one receive delivers, the one further ahead in the queue comes first in the log if
      it was ready when the message came: a ready newcomer does not overtake what was held. */
  lemma ReadyKeepTheirOrder(e: Endpoint, m: Message, i: nat, y: Message)
    returns (out: seq<Message>, k: nat, l: nat)
    requires m.kind != "health" && i < |e.held + [m]|
    requires Deliverable(e.clock, (e.held + [m])[i]) && y !in (e.held + [m])[..i + 1]
    ensures Log(Receive(e, m).history) == Log(e.history) + out
    ensures (e.held + [m])[i] in out && y in out ==>
              k < l < |out| && out[k] == (e.held + [m])[i] && out[l] == y
  {
    hide Drain, Deliverable;
    var queue := e.held + [m];
    out := Drain(e.clock, queue).out;
    LogAppend(e.history, Deliveries(out));
    LogOfDeliveries(out);
    k, l := 0, 0;
    if queue[i] in out && y in out {
      k, l := DrainKeepsReadyOrder(e.clock, queue, i, y);
    }
  }
}
