/** Draining a hold queue (causal_broadcast.py:126-139), as functions on values. */
module HoldQueues {
  import opened VectorClocks
  import opened DeliveryChains

  /** What a drain leaves behind: the clock, the messages still held, and those delivered, in order. */
  datatype Outcome = Outcome(clock: Clock, held: seq<Message>, out: seq<Message>)

  /** One sweep over the queue, front to back, at the clock as it moves. */
  function Sweep(c: Clock, queue: seq<Message>): (r: Outcome)
    ensures |r.held| + |r.out| == |queue|
    decreases |queue|
  {
    if queue == [] then Outcome(c, [], [])
    else if Deliverable(c, queue[0]) then
      var r := Sweep(Advance(c, queue[0]), queue[1..]);
      r.(out := [queue[0]] + r.out)
    else
      var r := Sweep(c, queue[1..]);
      r.(held := [queue[0]] + r.held)
  }

  /** Sweeps until one of them delivers nothing. */
  function Drain(c: Clock, queue: seq<Message>): Outcome
    decreases |queue|
  {
    var r := Sweep(c, queue);
    if r.out == [] then r
    else
      var d := Drain(r.clock, r.held);
      d.(out := r.out + d.out)
  }

  // ------------------------------------------------------------------
  // Sweeping and draining step by step, as the loops do
  // ------------------------------------------------------------------

  /** An outcome to which earlier work is added in front. */
  function Resume(held: seq<Message>, out: seq<Message>, r: Outcome): Outcome {
    Outcome(r.clock, held + r.held, out + r.out)
  }

  lemma ResumeNothing(r: Outcome)
    ensures Resume([], [], r) == r
  {
  }

  lemma SweepStep(c: Clock, queue: seq<Message>, held: seq<Message>, out: seq<Message>)
    requires queue != []
    ensures Resume(held, out, Sweep(c, queue)) ==
            if Deliverable(c, queue[0])
            then Resume(held, out + [queue[0]], Sweep(Advance(c, queue[0]), queue[1..]))
            else Resume(held + [queue[0]], out, Sweep(c, queue[1..]))
  {
  }

  lemma SweepEnd(c: Clock, held: seq<Message>, out: seq<Message>)
    ensures Resume(held, out, Sweep(c, [])) == Outcome(c, held, out)
  {
  }

  /** After a sweep that delivered something the drain goes on; after one that did not it is over. */
  lemma DrainStep(c: Clock, queue: seq<Message>, done: seq<Message>)
    ensures var r := Sweep(c, queue);
            if r.out == [] then
              && r == Outcome(c, queue, [])
              && Resume([], done, Drain(c, queue)) == Outcome(c, queue, done)
            else
              && |r.held| < |queue|
              && Resume([], done, Drain(c, queue)) == Resume([], done + r.out, Drain(r.clock, r.held))
  {
    var r := Sweep(c, queue);
    if r.out == [] {
      EmptySweepIsQuiescent(c, queue);
    } else {
      var d := Drain(r.clock, r.held);
      assert done + (r.out + d.out) == (done + r.out) + d.out;
    }
  }

  // ------------------------------------------------------------------
  // What a sweep and a drain guarantee
  // ------------------------------------------------------------------

  /** `xs` is `ys` with some elements dropped and the order kept. */
  predicate Subsequence(xs: seq<Message>, ys: seq<Message>)
    decreases |ys|
  {
    xs == [] ||
    (ys != [] && ((xs[0] == ys[0] && Subsequence(xs[1..], ys[1..])) || Subsequence(xs, ys[1..])))
  }

  ghost predicate Quiescent(c: Clock, held: seq<Message>) {
    forall m | m in held :: !Deliverable(c, m)
  }

  /** Everything a drain must do, said without saying how: each delivery legal when it happens,
      nothing lost or invented, what is kept kept in order, and nothing deliverable left. */
  ghost predicate Drained(c: Clock, queue: seq<Message>, r: Outcome) {
    && CausalChain(c, r.out)
    && r.clock == After(c, r.out)
    && multiset(queue) == multiset(r.out) + multiset(r.held)
    && Subsequence(r.held, queue)
    && Quiescent(r.clock, r.held)
  }

  lemma {:induction false} SubsequenceSelf(xs: seq<Message>)
    ensures Subsequence(xs, xs)
    decreases |xs|
  {
    if xs != [] {
      SubsequenceSelf(xs[1..]);
    }
  }

  lemma {:induction false} SubsequenceTransitive(xs: seq<Message>, ys: seq<Message>, zs: seq<Message>)
    requires Subsequence(xs, ys) && Subsequence(ys, zs)
    ensures Subsequence(xs, zs)
    decreases |zs|
  {
    if xs != [] {
      if ys[0] == zs[0] && Subsequence(ys[1..], zs[1..]) {
        if xs[0] == ys[0] && Subsequence(xs[1..], ys[1..]) {
          SubsequenceTransitive(xs[1..], ys[1..], zs[1..]);
        } else {
          SubsequenceTransitive(xs, ys[1..], zs[1..]);
        }
      } else {
        SubsequenceTransitive(xs, ys, zs[1..]);
      }
    }
  }

  lemma {:induction false} SubsequenceSnoc(xs: seq<Message>, ys: seq<Message>, y: Message)
    requires Subsequence(xs, ys)
    ensures Subsequence(xs, ys + [y]) && Subsequence(xs + [y], ys + [y])
    decreases |ys|
  {
    if ys == [] {
      assert ys + [y] == [y] && xs + [y] == [y];
      SubsequenceSelf([y]);
    } else {
      assert (ys + [y])[1..] == ys[1..] + [y];
      if xs != [] && xs[0] == ys[0] && Subsequence(xs[1..], ys[1..]) {
        assert (xs + [y])[1..] == xs[1..] + [y];
        SubsequenceSnoc(xs[1..], ys[1..], y);
      } else {
        SubsequenceSnoc(xs, ys[1..], y);
      }
    }
  }

  lemma {:induction false} SweepDelivers(c: Clock, queue: seq<Message>)
    ensures CausalChain(c, Sweep(c, queue).out) && Sweep(c, queue).clock == After(c, Sweep(c, queue).out)
    decreases |queue|
  {
    if queue != [] {
      var m, rest := queue[0], queue[1..];
      if Deliverable(c, m) {
        SweepDelivers(Advance(c, m), rest);
        assert Sweep(c, queue).out[1..] == Sweep(Advance(c, m), rest).out;
      } else {
        SweepDelivers(c, rest);
      }
    }
  }

  lemma {:induction false} SweepKeeps(c: Clock, queue: seq<Message>)
    ensures multiset(queue) == multiset(Sweep(c, queue).out) + multiset(Sweep(c, queue).held)
    ensures Subsequence(Sweep(c, queue).held, queue)
    decreases |queue|
  {
    if queue != [] {
      var m, rest := queue[0], queue[1..];
      assert queue == [m] + rest;
      SweepKeeps(if Deliverable(c, m) then Advance(c, m) else c, rest);
    }
  }

  /** A sweep that delivers nothing has tested every message at the clock it leaves. */
  lemma {:induction false} EmptySweepIsQuiescent(c: Clock, queue: seq<Message>)
    requires Sweep(c, queue).out == []
    ensures Sweep(c, queue) == Outcome(c, queue, [])
    ensures Quiescent(c, queue)
    decreases |queue|
  {
    if queue != [] {
      EmptySweepIsQuiescent(c, queue[1..]);
      assert queue == [queue[0]] + queue[1..];
    }
  }

  /** The drain meets its specification for every clock and every queue. */
  lemma {:induction false} DrainMeaning(c: Clock, queue: seq<Message>)
    ensures Drained(c, queue, Drain(c, queue))
    decreases |queue|
  {
    var r := Sweep(c, queue);
    SweepDelivers(c, queue);
    SweepKeeps(c, queue);
    if r.out == [] {
      EmptySweepIsQuiescent(c, queue);
    } else {
      var d := Drain(r.clock, r.held);
      DrainMeaning(r.clock, r.held);
      CausalChainAppend(c, r.out, d.out);
      AfterAppend(c, r.out, d.out);
      SubsequenceTransitive(d.held, r.held, queue);
    }
  }

  /** The facts about a drain of causal messages that the other modules use. */
  lemma DrainFacts(c: Clock, queue: seq<Message>)
    requires HealthFree(queue)
    ensures var r := Drain(c, queue);
            && CausalChain(c, r.out) && Chain(c, r.out) && HealthFree(r.out) && HealthFree(r.held)
            && r.clock == After(c, r.out)
            && multiset(queue) == multiset(r.out) + multiset(r.held)
            && Subsequence(r.held, queue)
            && Quiescent(r.clock, r.held)
  {
    var r := Drain(c, queue);
    DrainMeaning(c, queue);
    CausalChainIsChain(c, r.out);
    forall m | m in r.out || m in r.held
      ensures m in queue
    {
      assert m in multiset(queue);
    }
  }
}
