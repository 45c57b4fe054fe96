/** The endpoint as the program has it: an object whose methods update its fields in place
    (gaia_server/ipc/causal_broadcast.py), proved against the functions on values. */
module CausalBroadcasts {
  import opened VectorClocks
  import opened HoldQueues
  import Endpoints

  function Ids(ms: seq<Message>): seq<string> {
    seq(|ms|, i requires 0 <= i < |ms| => ms[i].id)
  }

  lemma IdsSnoc(ms: seq<Message>, m: Message)
    ensures Ids(ms + [m]) == Ids(ms) + [m.id]
  {
  }

  lemma HistorySnoc(h: seq<Endpoints.Event>, ms: seq<Message>, m: Message)
    ensures h + Endpoints.Deliveries(ms) + [Endpoints.Delivered(m)] == h + Endpoints.Deliveries(ms + [m])
  {
  }

  lemma HistoryAppend(h: seq<Endpoints.Event>, ms: seq<Message>, ns: seq<Message>)
    ensures h + Endpoints.Deliveries(ms) + Endpoints.Deliveries(ns) == h + Endpoints.Deliveries(ms + ns)
  {
  }

  class CausalBroadcast {
    const localActor: Actor
    var clock: Clock
    var holdQueue: seq<Message>
    var delivered: seq<string>

    ghost var history: seq<Endpoints.Event>
    ghost var arrived: seq<Message>

    /** The object's fields as one value. */
    ghost function State(): Endpoints.Endpoint
      reads this
    {
      Endpoints.Endpoint(localActor, clock, holdQueue, history, arrived)
    }

    /** The delivery log lists the ids of the delivered messages. */
    ghost predicate Logged()
      reads this
    {
      delivered == Ids(Endpoints.Log(history))
    }

    ghost predicate Valid()
      reads this
    {
      Endpoints.Sound(State()) && Logged()
    }

    constructor (actor: Actor)
      ensures Valid() && State() == Endpoints.Create(actor)
    {
      localActor := actor;
      clock := map[actor := 0];
      holdQueue := [];
      delivered := [];
      history := [];
      arrived := [];
      new;
      Endpoints.CreateSound(actor);
    }

    /** The message's id stands for the random one the program draws. */
    method Send(kind: string, id: string) returns (msg: Message)
      requires Valid()
      modifies `clock, `history
      ensures Valid()
      ensures State() == Endpoints.Send(old(State()), kind, id)
      ensures msg == Endpoints.Outbound(old(State()), kind, id)
      ensures msg.id == id && msg.source == localActor && msg.kind == kind && msg.vector == clock
      ensures forall a :: Lookup(clock, a) == Lookup(old(clock), a) + if a == localActor then 1 else 0
    {
      Endpoints.SendSound(State(), kind, id);
      Endpoints.SendLog(State(), kind, id);
      clock := clock[localActor := Lookup(clock, localActor) + 1];
      msg := Message(id, localActor, kind, clock);
      history := history + [Endpoints.Sent(msg)];
    }

    method Receive(msg: Message)
      requires Valid()
      modifies this
      ensures Valid()
      ensures State() == Endpoints.Receive(old(State()), msg)
    {
      hide Endpoints.Sound, Endpoints.Log, Drain, Advance;
      ghost var after := Endpoints.Receive(State(), msg);
      Endpoints.ReceiveSound(State(), msg);
      arrived := arrived + [msg];
      if msg.kind == HEALTH {
        Deliver(msg);
        assert State() == after;
        return;
      }
      holdQueue := holdQueue + [msg];
      TryDeliverBuffered();
      assert State() == after;
    }

    method IsDeliverable(msg: Message) returns (ok: bool)
      ensures ok <==> Deliverable(clock, msg)
    {
      var sender := msg.source;
      if Lookup(msg.vector, sender) != Lookup(clock, sender) + 1 {
        return false;
      }
      var actors := msg.vector.Keys;
      while actors != {}
        invariant actors <= msg.vector.Keys
        invariant forall a | a in msg.vector.Keys - actors && a != sender :: msg.vector[a] <= Lookup(clock, a)
        decreases actors
      {
        var actor :| actor in actors;
        actors := actors - {actor};
        if actor == sender {
          continue;
        }
        if msg.vector[actor] > Lookup(clock, actor) {
          return false;
        }
      }
      return true;
    }

    method Deliver(msg: Message)
      requires Logged()
      modifies `clock, `delivered, `history
      ensures Logged()
      ensures clock == Advance(old(clock), msg)
      ensures history == old(history) + [Endpoints.Delivered(msg)]
    {
      Endpoints.LogAppend(history, [Endpoints.Delivered(msg)]);
      assert Endpoints.Log([Endpoints.Delivered(msg)]) == [msg];
      IdsSnoc(Endpoints.Log(history), msg);
      var sender := msg.source;
      clock := clock[sender := Max(Lookup(clock, sender), Lookup(msg.vector, sender))];
      delivered := delivered + [msg.id];
      history := history + [Endpoints.Delivered(msg)];
    }

    /** Sweeps the hold queue until a sweep delivers nothing; the queue shrinks on every other sweep. */
    method TryDeliverBuffered()
      requires Logged()
      modifies `clock, `holdQueue, `delivered, `history
      ensures Logged()
      ensures var d := Drain(old(clock), old(holdQueue));
              && clock == d.clock && holdQueue == d.held
              && history == old(history) + Endpoints.Deliveries(d.out)
    {
      hide Drain, Sweep, Resume, Deliverable, Advance;
      ghost var goal := Drain(clock, holdQueue);
      ghost var done: seq<Message> := [];
      ResumeNothing(goal);
      var deliveredAny := true;
      while deliveredAny
        invariant Logged()
        invariant deliveredAny ==> goal == Resume([], done, Drain(clock, holdQueue))
        invariant !deliveredAny ==> goal == Outcome(clock, holdQueue, done)
        invariant history == old(history) + Endpoints.Deliveries(done)
        decreases |holdQueue|, deliveredAny
      {
        deliveredAny := false;
        var remaining: seq<Message> := [];
        ghost var sweep := Sweep(clock, holdQueue);
        ghost var swept: seq<Message> := [];
        DrainStep(clock, holdQueue, done);
        ResumeNothing(sweep);
        ghost var before := history;
        while holdQueue != []
          invariant Logged()
          invariant sweep == Resume(remaining, swept, Sweep(clock, holdQueue))
          invariant deliveredAny <==> swept != []
          invariant history == before + Endpoints.Deliveries(swept)
          decreases |holdQueue|
        {
          SweepStep(clock, holdQueue, remaining, swept);
          var msg := holdQueue[0];
          holdQueue := holdQueue[1..];
          var ready := IsDeliverable(msg);
          if ready {
            HistorySnoc(before, swept, msg);
            Deliver(msg);
            deliveredAny := true;
            swept := swept + [msg];
          } else {
            remaining := remaining + [msg];
          }
        }
        SweepEnd(clock, remaining, swept);
        holdQueue := remaining;
        HistoryAppend(old(history), done, swept);
        done := done + swept;
      }
    }

    method ClockSnapshot() returns (snapshot: Clock)
      ensures snapshot == clock
    {
      snapshot := clock;
    }

    method HoldQueueDepth() returns (depth: nat)
      ensures depth == |holdQueue|
    {
      depth := |holdQueue|;
    }
  }
}
