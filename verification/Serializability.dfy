/** Interleaved restores behave as if run one at a time, in the order in which they end. */
module Serializability {
  import opened MetadataStores
  import opened RestoreModel
  import opened RestoreInterleaving
  import Arbitration

  // ------------------------------------------------------------------
  // Running restores one at a time
  // ------------------------------------------------------------------

  ghost predicate Indexes(order: seq<nat>, n: nat) {
    forall k | 0 <= k < |order| :: order[k] < n
  }

  /** The stores after whole restores of the given tasks, one after another. */
  function SerialWorld(c: Config, w: World, ids: seq<string>, order: seq<nat>): World
    requires Indexes(order, |ids|)
  {
    if order == [] then w
    else Restore(c, SerialWorld(c, w, ids, order[..|order| - 1]), ids[order[|order| - 1]]).0
  }

  /** What the k-th of them returns or raises. */
  function SerialOutcome(c: Config, w: World, ids: seq<string>, order: seq<nat>, k: nat): Result<RestoreResult>
    requires Indexes(order, |ids|) && k < |order|
  {
    Restore(c, SerialWorld(c, w, ids, order[..k]), ids[order[k]]).1
  }

  // ------------------------------------------------------------------
  // The order in which interleaved restores end
  // ------------------------------------------------------------------

  /** The tasks that have returned or raised, in that order. A successful restore ends with its promotion. */
  function EndOrder(c: Config, s: System, run: seq<Action>): (order: seq<nat>)
    ensures Indexes(order, |s.tasks|)
  {
    if run == [] then []
    else
      var before := run[..|run| - 1];
      var order := EndOrder(c, s, before);
      match run[|run| - 1]
      case Outside(_) => order
      case Turn(t) =>
        if t < |s.tasks| && !Finished(Exec(c, s, before).tasks[t].phase) && Finished(Exec(c, s, run).tasks[t].phase)
        then order + [t]
        else order
  }

  function Outcome(p: Phase): Result<RestoreResult>
    requires Finished(p)
  {
    match p
    case Done(_, result) => Ok(result)
    case Failed(e) => Err(e)
  }

  // ------------------------------------------------------------------
  // The checks read nothing that a promotion writes
  // ------------------------------------------------------------------

  /** Same stores except for trust keys. */
  ghost predicate SameInputs(c: Config, v: World, w: World) {
    && v.checkpoints == w.checkpoints && v.events == w.events
    && forall k | (forall node :: k != TrustKey(c, node)) :: Fetch(v.meta, k) == Fetch(w.meta, k)
  }

  lemma SameManifests(c: Config, v: World, w: World, id: string)
    requires SameInputs(c, v, w)
    ensures Fetch(v.meta, ManifestKey(c, id)) == Fetch(w.meta, ManifestKey(c, id))
    ensures Fetch(v.meta, AttestationKey(c, id)) == Fetch(w.meta, AttestationKey(c, id))
  {
    forall node
      ensures TrustKey(c, node) != ManifestKey(c, id) && TrustKey(c, node) != AttestationKey(c, id)
    {
      KeysApart(c, node, id, id);
    }
  }

  lemma StepsReadInputs(c: Config, v: World, w: World, id: string, m: Manifest)
    requires SameInputs(c, v, w)
    ensures LoadManifest(c, v, id) == LoadManifest(c, w, id)
    ensures VerifyAttestation(c, v, m) == VerifyAttestation(c, w, m)
    ensures FetchPayload(c, v, m) == FetchPayload(c, w, m)
    ensures ReplayEvents(c, v, m) == ReplayEvents(c, w, m)
  {
    SameManifests(c, v, w, id);
    if m.body.attestationRef.Some? {
      SameManifests(c, v, w, m.body.attestationRef.value);
    }
  }

  lemma ChecksReadInputs(c: Config, v: World, w: World, id: string)
    requires SameInputs(c, v, w)
    ensures Checks(c, v, id) == Checks(c, w, id)
  {
    forall m
      ensures VerifyAttestation(c, v, m) == VerifyAttestation(c, w, m)
      ensures FetchPayload(c, v, m) == FetchPayload(c, w, m)
      ensures ReplayEvents(c, v, m) == ReplayEvents(c, w, m)
    {
      StepsReadInputs(c, v, w, id, m);
    }
    SameManifests(c, v, w, id);
  }

  lemma PromotionKeepsInputs(c: Config, w: World, m: Manifest)
    ensures SameInputs(c, w, PromoteTrust(c, w, m).0)
  {
  }

  // ------------------------------------------------------------------
  // The invariant
  // ------------------------------------------------------------------

  /** An unfinished task holds exactly what the checks yield on the inputs `w`. */
  ghost predicate Progress(c: Config, w: World, id: string, p: Phase) {
    match p
    case Loaded(m) => LoadManifest(c, w, id) == Ok(m)
    case Hashed(m) => LoadManifest(c, w, id) == Ok(m) && VerifyHashes(c, m).Ok?
    case Attested(m) =>
      LoadManifest(c, w, id) == Ok(m) && VerifyHashes(c, m).Ok? && VerifyAttestation(c, w, m).Ok?
    case Fetched(m, payload) =>
      && LoadManifest(c, w, id) == Ok(m) && VerifyHashes(c, m).Ok? && VerifyAttestation(c, w, m).Ok?
      && FetchPayload(c, w, m) == Ok(payload)
    case Replayed(m, payload, n) =>
      && LoadManifest(c, w, id) == Ok(m) && VerifyHashes(c, m).Ok? && VerifyAttestation(c, w, m).Ok?
      && FetchPayload(c, w, m) == Ok(payload) && ReplayEvents(c, w, m) == Ok(n)
    case Ready(m, payload, n) => Checks(c, w, id) == Ok(Cleared(m, payload, n))
    case _ => true
  }

  /** One step of the checks either goes on or raises what the whole sequence of checks raises. */
  lemma CheckStep(c: Config, w: World, v: World, id: string, p: Phase)
    requires SameInputs(c, w, v) && Progress(c, w, id, p) && !Finished(p) && !p.Ready?
    ensures var q := NextPhase(c, v, id, p);
            && !q.Done?
            && (q.Failed? ==> Checks(c, v, id) == Err(q.error))
            && Progress(c, w, id, q)
  {
    ChecksReadInputs(c, w, v, id);
    if p.Starting? {
      SameManifests(c, w, v, id);
    } else {
      StepsReadInputs(c, w, v, id, p.m);
    }
  }

  /** A promotion is the rest of the whole restore. */
  lemma PromotionStep(c: Config, w: World, v: World, id: string, m: Manifest, payload: Bytes, n: nat)
    requires SameInputs(c, w, v) && Progress(c, w, id, Ready(m, payload, n))
    ensures var (v', r) := PromoteTrust(c, v, m);
            && Restore(c, v, id) ==
               (v', if r.Ok? then Ok(Summary(id, Cleared(m, payload, n))) else Err(r.error))
            && SameInputs(c, w, v')
  {
    ChecksReadInputs(c, w, v, id);
    PromotionKeepsInputs(c, v, m);
  }

  ghost predicate NoRepeats(order: seq<nat>) {
    forall i, j | 0 <= i < j < |order| :: order[i] != order[j]
  }

  /** The interleaved state is that of the serial run of the tasks that have ended; the others have had
      no effect and hold what the checks yield on the inputs. */
  ghost predicate Explained(c: Config, w: World, ids: seq<string>, s: System, order: seq<nat>) {
    && |s.tasks| == |ids| && (forall t | 0 <= t < |ids| :: s.tasks[t].manifestId == ids[t])
    && Indexes(order, |ids|) && NoRepeats(order)
    && s.world == SerialWorld(c, w, ids, order)
    && SameInputs(c, w, s.world)
    && (forall t: nat | t < |ids| :: Finished(s.tasks[t].phase) <==> t in order)
    && (forall t: nat | t < |ids| :: Progress(c, w, ids[t], s.tasks[t].phase))
    && (forall k: nat | k < |order| :: Finished(s.tasks[order[k]].phase) &&
          Outcome(s.tasks[order[k]].phase) == SerialOutcome(c, w, ids, order, k))
  }

  lemma BeginExplained(c: Config, w: World, ids: seq<string>)
    ensures Explained(c, w, ids, Begin(w, ids), [])
  {
  }

  /** One more task has ended: what was serial before stays so, and the newcomer comes last. */
  lemma OneMoreEnds(c: Config, w: World, ids: seq<string>, order: seq<nat>, t: nat)
    requires Indexes(order, |ids|) && t < |ids|
    ensures Indexes(order + [t], |ids|)
    ensures SerialWorld(c, w, ids, order + [t]) == Restore(c, SerialWorld(c, w, ids, order), ids[t]).0
    ensures SerialOutcome(c, w, ids, order + [t], |order|) == Restore(c, SerialWorld(c, w, ids, order), ids[t]).1
    ensures forall k: nat | k < |order| ::
              SerialOutcome(c, w, ids, order + [t], k) == SerialOutcome(c, w, ids, order, k)
  {
    assert (order + [t])[..|order|] == order;
    forall k: nat | k < |order|
      ensures (order + [t])[..k] == order[..k]
    {
    }
  }

  lemma EndExplained(c: Config, w: World, ids: seq<string>, s: System, order: seq<nat>, t: nat, s': System)
    requires Explained(c, w, ids, s, order) && t < |ids| && !Finished(s.tasks[t].phase)
    requires |s'.tasks| == |s.tasks| && s'.tasks[t].manifestId == ids[t] && Finished(s'.tasks[t].phase)
    requires forall u | 0 <= u < |ids| && u != t :: s'.tasks[u] == s.tasks[u]
    requires SameInputs(c, w, s'.world)
    requires Restore(c, s.world, ids[t]) == (s'.world, Outcome(s'.tasks[t].phase))
    ensures Explained(c, w, ids, s', order + [t])
  {
    hide Restore, SerialOutcome, SerialWorld, SameInputs;
    OneMoreEnds(c, w, ids, order, t);
    var order' := order + [t];
    forall k: nat | k < |order'|
      ensures Finished(s'.tasks[order'[k]].phase)
      ensures Outcome(s'.tasks[order'[k]].phase) == SerialOutcome(c, w, ids, order', k)
    {
      if k < |order| {
        assert order'[k] == order[k] && order[k] in order;
      }
    }
    assert forall u: nat :: u in order' <==> u in order || u == t;
  }

  lemma GoOnExplained(c: Config, w: World, ids: seq<string>, s: System, order: seq<nat>, t: nat, s': System)
    requires Explained(c, w, ids, s, order) && t < |ids| && !Finished(s.tasks[t].phase)
    requires |s'.tasks| == |s.tasks| && s'.tasks[t].manifestId == ids[t] && !Finished(s'.tasks[t].phase)
    requires forall u | 0 <= u < |ids| && u != t :: s'.tasks[u] == s.tasks[u]
    requires s'.world == s.world && Progress(c, w, ids[t], s'.tasks[t].phase)
    ensures Explained(c, w, ids, s', order)
  {
    hide SerialOutcome, SerialWorld, SameInputs, Progress;
    forall k: nat | k < |order|
      ensures order[k] != t
    {
      assert order[k] in order;
    }
    forall u: nat | u < |ids|
      ensures Progress(c, w, ids[u], s'.tasks[u].phase)
    {
      if u != t {
        assert s'.tasks[u] == s.tasks[u];
      }
    }
  }

  /** What a turn of an unfinished task does, in terms of whole restores. */
  lemma TurnEffect(c: Config, w: World, ids: seq<string>, s: System, order: seq<nat>, t: nat)
    requires Explained(c, w, ids, s, order) && t < |ids| && !Finished(s.tasks[t].phase)
    ensures var s' := TakeTurn(c, s, t); var q := s'.tasks[t].phase;
            && s'.tasks[t].manifestId == ids[t]
            && SameInputs(c, w, s'.world)
            && (Finished(q) ==> Restore(c, s.world, ids[t]) == (s'.world, Outcome(q)))
            && (!Finished(q) ==> s'.world == s.world && Progress(c, w, ids[t], q))
  {
    hide SerialWorld, SerialOutcome, SameInputs, Checks, PromoteTrust;
    var p := s.tasks[t].phase;
    assert Progress(c, w, ids[t], p);
    if p.Ready? {
      hide Progress;
      PromotionStep(c, w, s.world, ids[t], p.m, p.payload, p.replayed);
    } else {
      CheckStep(c, w, s.world, ids[t], p);
    }
  }

  lemma TurnExplained(c: Config, w: World, ids: seq<string>, s: System, order: seq<nat>, t: nat)
    requires Explained(c, w, ids, s, order) && t < |ids|
    ensures var s' := TakeTurn(c, s, t);
            Explained(c, w, ids, s',
                      if !Finished(s.tasks[t].phase) && Finished(s'.tasks[t].phase) then order + [t] else order)
  {
    hide SerialWorld, SerialOutcome, SameInputs, PromoteTrust, Progress, Restore;
    var s' := TakeTurn(c, s, t);
    if Finished(s.tasks[t].phase) {
      assert s' == s;
    } else {
      TurnEffect(c, w, ids, s, order, t);
      if Finished(s'.tasks[t].phase) {
        EndExplained(c, w, ids, s, order, t, s');
      } else {
        GoOnExplained(c, w, ids, s, order, t, s');
      }
    }
  }

  lemma {:induction false} RunExplained(c: Config, w: World, ids: seq<string>, run: seq<Action>)
    requires forall act | act in run :: act.Turn?
    ensures Explained(c, w, ids, Exec(c, Begin(w, ids), run), EndOrder(c, Begin(w, ids), run))
  {
    hide Explained, TakeTurn;
    if run == [] {
      BeginExplained(c, w, ids);
    } else {
      var before := run[..|run| - 1];
      RunExplained(c, w, ids, before);
      assert run[|run| - 1] in run;
      var t := run[|run| - 1].task;
      if t < |ids| {
        TurnExplained(c, w, ids, Exec(c, Begin(w, ids), before), EndOrder(c, Begin(w, ids), before), t);
      }
    }
  }

  /** Serializability: however the turns of any number of restores are interleaved, the stores and every
      result and error are those of running the restores that have ended one at a time, in the order in
      which they ended, which for successful ones is the order of their promotions; restores still under
      way have had no effect. */
  lemma InterleavedIsSerial(c: Config, w: World, ids: seq<string>, run: seq<Action>)
    requires forall act | act in run :: act.Turn?
    ensures var s := Exec(c, Begin(w, ids), run); var order := EndOrder(c, Begin(w, ids), run);
            && s.world == SerialWorld(c, w, ids, order)
            && NoRepeats(order)
            && (forall t: nat | t < |ids| :: Finished(s.tasks[t].phase) <==> t in order)
            && (forall k: nat | k < |order| :: Finished(s.tasks[order[k]].phase) &&
                  Outcome(s.tasks[order[k]].phase) == SerialOutcome(c, w, ids, order, k))
  {
    RunExplained(c, w, ids, run);
  }

  // ------------------------------------------------------------------
  // The order of promotions
  // ------------------------------------------------------------------

  /** Those of `order` that succeeded. */
  function Promoted(s: System, order: seq<nat>): seq<nat>
    requires Indexes(order, |s.tasks|)
  {
    if order == [] then []
    else
      var t := order[|order| - 1];
      Promoted(s, order[..|order| - 1]) + (if s.tasks[t].phase.Done? then [t] else [])
  }

  function Writers(writes: seq<Write>): seq<nat> {
    seq(|writes|, i requires 0 <= i < |writes| => writes[i].task)
  }

  lemma {:induction false} PromotedSame(s: System, s': System, order: seq<nat>)
    requires |s.tasks| == |s'.tasks| && Indexes(order, |s.tasks|)
    requires forall t | t in order :: s.tasks[t] == s'.tasks[t]
    ensures Promoted(s, order) == Promoted(s', order)
  {
    if order != [] {
      assert order[|order| - 1] in order;
      PromotedSame(s, s', order[..|order| - 1]);
    }
  }

  /** The successful restores, taken in the order in which restores end, are the writers of the trust
      keys in the order of their writes. */
  lemma {:induction false} EndOrderIsPromotionOrder(c: Config, w: World, ids: seq<string>, run: seq<Action>)
    requires forall act | act in run :: act.Turn?
    ensures var s := Exec(c, Begin(w, ids), run);
            Promoted(s, EndOrder(c, Begin(w, ids), run)) == Writers(s.writes)
  {
    hide TakeTurn, Explained;
    if run != [] {
      var before := run[..|run| - 1];
      var s, s' := Exec(c, Begin(w, ids), before), Exec(c, Begin(w, ids), run);
      var order := EndOrder(c, Begin(w, ids), before);
      EndOrderIsPromotionOrder(c, w, ids, before);
      RunExplained(c, w, ids, before);
      assert run[|run| - 1] in run;
      var t := run[|run| - 1].task;
      if t < |ids| {
        EndedOnce(c, w, ids, s, order, t);
        TurnPromotes(c, s, order, t);
      }
    }
  }

  lemma EndedOnce(c: Config, w: World, ids: seq<string>, s: System, order: seq<nat>, t: nat)
    requires Explained(c, w, ids, s, order) && t < |ids|
    ensures |s.tasks| == |ids| && !Finished(s.tasks[t].phase) ==> t !in order
  {
  }

  lemma TurnPromotes(c: Config, s: System, order: seq<nat>, t: nat)
    requires t < |s.tasks| && Indexes(order, |s.tasks|) && Promoted(s, order) == Writers(s.writes)
    requires !Finished(s.tasks[t].phase) ==> t !in order
    ensures var s' := TakeTurn(c, s, t);
            var order' := if !Finished(s.tasks[t].phase) && Finished(s'.tasks[t].phase) then order + [t] else order;
            Promoted(s', order') == Writers(s'.writes)
  {
    Arbitration.TurnWrites(c, s, t);
    hide TakeTurn, MayPromote;
    var s' := TakeTurn(c, s, t);
    if !Finished(s.tasks[t].phase) {
      PromotedSame(s, s', order);
      assert (order + [t])[..|order|] == order;
      assert s'.writes != s.writes ==> Writers(s'.writes) == Writers(s.writes) + [t];
    }
  }
}
