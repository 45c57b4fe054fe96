/** What must have been seen, and when, before a restore may write: over every interleaving of restores
    and of whatever else happens to the stores in between. */
module Evidence {
  import opened MetadataStores
  import opened RestoreModel
  import opened RestoreMeaning
  import opened RestoreInterleaving
  import Arbitration

  // ------------------------------------------------------------------
  // Moments of a run at which the steps read what they needed
  // ------------------------------------------------------------------

  ghost predicate SawManifest(c: Config, s: System, run: seq<Action>, id: string, m: Manifest, i: nat) {
    i < |run| && LoadManifest(c, At(c, s, run, i).world, id) == Ok(m)
  }

  /** At moment j the attestation check passed, after the manifest had been read. */
  ghost predicate SawAttestation(c: Config, s: System, run: seq<Action>, id: string, m: Manifest, j: nat) {
    && j < |run| && VerifyAttestation(c, At(c, s, run, j).world, m).Ok?
    && exists i: nat :: i < j && SawManifest(c, s, run, id, m, i)
  }

  /** At moment k the payload was fetched, after the attestation check. */
  ghost predicate SawPayload(c: Config, s: System, run: seq<Action>, id: string, m: Manifest, payload: Bytes, k: nat) {
    && k < |run| && FetchPayload(c, At(c, s, run, k).world, m) == Ok(payload)
    && exists j: nat :: j < k && SawAttestation(c, s, run, id, m, j)
  }

  /** At moment l the events were replayed, after everything else. */
  ghost predicate SawAll(c: Config, s: System, run: seq<Action>, id: string, x: Cleared, l: nat) {
    && l < |run| && ReplayEvents(c, At(c, s, run, l).world, x.manifest) == Ok(x.replayed)
    && exists k: nat :: k < l && SawPayload(c, s, run, id, x.manifest, x.payload, k)
  }

  ghost predicate AllClear(c: Config, s: System, run: seq<Action>, id: string, x: Cleared) {
    && VerifyHashes(c, x.manifest).Ok? && CheckCriu(x.manifest).Ok?
    && exists l: nat :: SawAll(c, s, run, id, x, l)
  }

  /** The evidence behind each phase. */
  ghost predicate Backed(c: Config, s: System, run: seq<Action>, id: string, p: Phase) {
    match p
    case Loaded(m) => exists i: nat :: SawManifest(c, s, run, id, m, i)
    case Hashed(m) => VerifyHashes(c, m).Ok? && exists i: nat :: SawManifest(c, s, run, id, m, i)
    case Attested(m) => VerifyHashes(c, m).Ok? && exists j: nat :: SawAttestation(c, s, run, id, m, j)
    case Fetched(m, payload) => VerifyHashes(c, m).Ok? && exists k: nat :: SawPayload(c, s, run, id, m, payload, k)
    case Replayed(m, payload, n) =>
      VerifyHashes(c, m).Ok? && exists l: nat :: SawAll(c, s, run, id, Cleared(m, payload, n), l)
    case Ready(m, payload, n) => AllClear(c, s, run, id, Cleared(m, payload, n))
    case Done(m, result) =>
      && result == Summary(id, Cleared(m, result.payload, result.eventsReplayed))
      && AllClear(c, s, run, id, Cleared(m, result.payload, result.eventsReplayed))
    case _ => true
  }

  // ------------------------------------------------------------------
  // Evidence is never lost, and each step adds its own
  // ------------------------------------------------------------------

  lemma ManifestKept(c: Config, s: System, run: seq<Action>, act: Action, id: string, m: Manifest, i: nat)
    requires SawManifest(c, s, run, id, m, i)
    ensures SawManifest(c, s, run + [act], id, m, i)
  {
    AtPrefix(c, s, run, act, i);
  }

  lemma AttestationKept(c: Config, s: System, run: seq<Action>, act: Action, id: string, m: Manifest, j: nat)
    requires SawAttestation(c, s, run, id, m, j)
    ensures SawAttestation(c, s, run + [act], id, m, j)
  {
    AtPrefix(c, s, run, act, j);
    var i: nat :| i < j && SawManifest(c, s, run, id, m, i);
    ManifestKept(c, s, run, act, id, m, i);
  }

  lemma PayloadKept(c: Config, s: System, run: seq<Action>, act: Action, id: string, m: Manifest,
                    payload: Bytes, k: nat)
    requires SawPayload(c, s, run, id, m, payload, k)
    ensures SawPayload(c, s, run + [act], id, m, payload, k)
  {
    AtPrefix(c, s, run, act, k);
    var j: nat :| j < k && SawAttestation(c, s, run, id, m, j);
    AttestationKept(c, s, run, act, id, m, j);
  }

  lemma AllKept(c: Config, s: System, run: seq<Action>, act: Action, id: string, x: Cleared, l: nat)
    requires SawAll(c, s, run, id, x, l)
    ensures SawAll(c, s, run + [act], id, x, l)
  {
    AtPrefix(c, s, run, act, l);
    var k: nat :| k < l && SawPayload(c, s, run, id, x.manifest, x.payload, k);
    PayloadKept(c, s, run, act, id, x.manifest, x.payload, k);
  }

  lemma BackedKept(c: Config, s: System, run: seq<Action>, act: Action, id: string, p: Phase)
    requires Backed(c, s, run, id, p)
    ensures Backed(c, s, run + [act], id, p)
  {
    hide SawManifest, SawAttestation, SawPayload, SawAll, VerifyHashes, CheckCriu, Summary;
    match p {
      case Loaded(m) =>
        var i: nat :| SawManifest(c, s, run, id, m, i);
        ManifestKept(c, s, run, act, id, m, i);
      case Hashed(m) =>
        var i: nat :| SawManifest(c, s, run, id, m, i);
        ManifestKept(c, s, run, act, id, m, i);
      case Attested(m) =>
        var j: nat :| SawAttestation(c, s, run, id, m, j);
        AttestationKept(c, s, run, act, id, m, j);
      case Fetched(m, payload) =>
        var k: nat :| SawPayload(c, s, run, id, m, payload, k);
        PayloadKept(c, s, run, act, id, m, payload, k);
      case Replayed(m, payload, n) =>
        var l: nat :| SawAll(c, s, run, id, Cleared(m, payload, n), l);
        AllKept(c, s, run, act, id, Cleared(m, payload, n), l);
      case Ready(m, payload, n) =>
        var l: nat :| SawAll(c, s, run, id, Cleared(m, payload, n), l);
        AllKept(c, s, run, act, id, Cleared(m, payload, n), l);
      case Done(m, result) =>
        var x := Cleared(m, result.payload, result.eventsReplayed);
        var l: nat :| SawAll(c, s, run, id, x, l);
        AllKept(c, s, run, act, id, x, l);
      case _ =>
    }
  }

  /** The phase that follows has its evidence, the last piece read at this very moment. */
  lemma Now(c: Config, s: System, run: seq<Action>, act: Action)
    ensures At(c, s, run + [act], |run|) == Exec(c, s, run)
  {
    assert (run + [act])[..|run|] == run;
  }

  lemma ManifestSeenNow(c: Config, s: System, run: seq<Action>, act: Action, id: string, m: Manifest)
    requires LoadManifest(c, Exec(c, s, run).world, id) == Ok(m)
    ensures SawManifest(c, s, run + [act], id, m, |run|)
  {
    Now(c, s, run, act);
  }

  lemma AttestationSeenNow(c: Config, s: System, run: seq<Action>, act: Action, id: string, m: Manifest, i: nat)
    requires SawManifest(c, s, run, id, m, i) && VerifyAttestation(c, Exec(c, s, run).world, m).Ok?
    ensures SawAttestation(c, s, run + [act], id, m, |run|)
  {
    Now(c, s, run, act);
    ManifestKept(c, s, run, act, id, m, i);
  }

  lemma PayloadSeenNow(c: Config, s: System, run: seq<Action>, act: Action, id: string, m: Manifest,
                       payload: Bytes, j: nat)
    requires SawAttestation(c, s, run, id, m, j) && FetchPayload(c, Exec(c, s, run).world, m) == Ok(payload)
    ensures SawPayload(c, s, run + [act], id, m, payload, |run|)
  {
    Now(c, s, run, act);
    AttestationKept(c, s, run, act, id, m, j);
  }

  lemma EventsSeenNow(c: Config, s: System, run: seq<Action>, act: Action, id: string, x: Cleared, k: nat)
    requires SawPayload(c, s, run, id, x.manifest, x.payload, k)
    requires ReplayEvents(c, Exec(c, s, run).world, x.manifest) == Ok(x.replayed)
    ensures SawAll(c, s, run + [act], id, x, |run|)
  {
    Now(c, s, run, act);
    PayloadKept(c, s, run, act, id, x.manifest, x.payload, k);
  }

  lemma NextBacked(c: Config, s: System, run: seq<Action>, act: Action, id: string, p: Phase)
    requires Backed(c, s, run, id, p) && !p.Ready?
    ensures Backed(c, s, run + [act], id, NextPhase(c, Exec(c, s, run).world, id, p))
  {
    hide Exec, LoadManifest, VerifyHashes, VerifyAttestation, FetchPayload, ReplayEvents, CheckCriu,
      SawManifest, SawAttestation, SawPayload, SawAll;
    var w := Exec(c, s, run).world;
    BackedKept(c, s, run, act, id, p);
    match p {
      case Starting =>
        var r := LoadManifest(c, w, id);
        if r.Ok? {
          ManifestSeenNow(c, s, run, act, id, r.value);
        }
      case Hashed(m) =>
        var i: nat :| SawManifest(c, s, run, id, m, i);
        if VerifyAttestation(c, w, m).Ok? {
          AttestationSeenNow(c, s, run, act, id, m, i);
        }
      case Attested(m) =>
        var j: nat :| SawAttestation(c, s, run, id, m, j);
        var r := FetchPayload(c, w, m);
        if r.Ok? {
          PayloadSeenNow(c, s, run, act, id, m, r.value, j);
        }
      case Fetched(m, payload) =>
        var k: nat :| SawPayload(c, s, run, id, m, payload, k);
        var r := ReplayEvents(c, w, m);
        if r.Ok? {
          EventsSeenNow(c, s, run, act, id, Cleared(m, payload, r.value), k);
        }
      case _ =>
    }
  }

  lemma TurnBacked(c: Config, s: System, run: seq<Action>, t: nat)
    requires t < |s.tasks|
    requires var task := Exec(c, s, run).tasks[t]; Backed(c, s, run, task.manifestId, task.phase)
    ensures var task := TakeTurn(c, Exec(c, s, run), t).tasks[t];
            Backed(c, s, run + [Turn(t)], task.manifestId, task.phase)
  {
    hide Exec, AllClear;
    var task := Exec(c, s, run).tasks[t];
    BackedKept(c, s, run, Turn(t), task.manifestId, task.phase);
    if !task.phase.Ready? {
      hide Backed, NextPhase;
      NextBacked(c, s, run, Turn(t), task.manifestId, task.phase);
    }
  }

  lemma {:induction false} RunBacked(c: Config, w: World, ids: seq<string>, run: seq<Action>, t: nat)
    requires t < |ids|
    ensures var task := Exec(c, Begin(w, ids), run).tasks[t];
            task.manifestId == ids[t] && Backed(c, Begin(w, ids), run, ids[t], task.phase)
  {
    hide Backed;
    var s := Begin(w, ids);
    TaskIds(c, w, ids, run, t);
    if run == [] {
      assert Backed(c, s, [], ids[t], Starting) by {
        StartBacked(c, s, ids[t]);
      }
    } else {
      var before, act := run[..|run| - 1], run[|run| - 1];
      assert run == before + [act];
      RunBacked(c, w, ids, before, t);
      BackedKept(c, s, before, act, ids[t], Exec(c, s, before).tasks[t].phase);
      if act == Turn(t) {
        TurnBacked(c, s, before, t);
      } else {
        OthersWait(c, Exec(c, s, before), act, t);
      }
    }
  }

  lemma StartBacked(c: Config, s: System, id: string)
    ensures Backed(c, s, [], id, Starting)
  {
  }

  // ------------------------------------------------------------------
  // The theorems
  // ------------------------------------------------------------------

  /** The stores warranted the restore: the manifest at moment `i`, the attestation at `j`, the payload
      at `k`, the events at `l`. */
  ghost predicate Vouched(c: Config, s: System, run: seq<Action>, id: string, x: Cleared,
                          i: nat, j: nat, k: nat, l: nat)
    requires i < j < k < l < |run|
  {
    Warranted(c, id, x, At(c, s, run, i).world, At(c, s, run, j).world,
              At(c, s, run, k).world, At(c, s, run, l).world)
  }

  lemma ClearMeans(c: Config, s: System, run: seq<Action>, id: string, x: Cleared)
    returns (i: nat, j: nat, k: nat, l: nat)
    requires AllClear(c, s, run, id, x)
    ensures i < j < k < l < |run| && Vouched(c, s, run, id, x, i, j, k, l)
  {
    hide At, LoadManifest, VerifyHashes, VerifyAttestation, FetchPayload, ReplayEvents, CheckCriu, Warranted;
    l :| SawAll(c, s, run, id, x, l);
    k :| k < l && SawPayload(c, s, run, id, x.manifest, x.payload, k);
    j :| j < k && SawAttestation(c, s, run, id, x.manifest, j);
    i :| i < j && SawManifest(c, s, run, id, x.manifest, i);
    StepsWarrant(c, id, x, At(c, s, run, i).world, At(c, s, run, j).world, At(c, s, run, k).world,
                 At(c, s, run, l).world);
  }

  /** Check before write: in every interleaved run, whatever else happens to the stores, a turn that
      writes writes the one trust key its manifest names, and belongs to a restore for which, at earlier
      moments and in this order, the manifest was there and signed, the attestation there if required or
      named, the payload there and of the declared hash, events there after the cursor if one is set, and
      the policy named if the path is a CRIU migration. */
  lemma CheckBeforeWrite(c: Config, w: World, ids: seq<string>, run: seq<Action>, t: nat)
    returns (x: Cleared, i: nat, j: nat, k: nat, l: nat)
    requires t < |ids|
    requires var s := Exec(c, Begin(w, ids), run);
             TakeTurn(c, s, t).writes != s.writes || TakeTurn(c, s, t).world != s.world
    ensures i < j < k < l < |run| && Vouched(c, Begin(w, ids), run, ids[t], x, i, j, k, l)
    ensures var s := Exec(c, Begin(w, ids), run);
            && Claimable(c, s.world.meta, x.manifest.body)
            && exists g :: RightClass(x.manifest.body, g) && TakeTurn(c, s, t).world ==
                 s.world.(meta := WithTrust(c, s.world.meta, x.manifest.body.nodeId, g))
  {
    hide Exec, Vouched, AllClear, TrustKey, TrustPlace, Granted, RightClass, MayPromote, Claimable;
    var s := Exec(c, Begin(w, ids), run);
    Arbitration.TurnWrites(c, s, t);
    RunBacked(c, w, ids, run, t);
    var p := s.tasks[t].phase;
    x := Cleared(p.m, p.payload, p.replayed);
    GrantedIsRight(p.m.body, Granted(p.m.body));
    MayPromoteIff(c, s.world, p.m);
    KeysArePlaces(c, p.m.body.nodeId);
    i, j, k, l := ClearMeans(c, Begin(w, ids), run, ids[t], x);
  }

  /** The same, after the event: every restore that succeeded had seen all of it, in order. Its result reports
      what it saw, and the class it reports is the one and only thing it wrote, to its node's trust key. */
  lemma SuccessWasVouched(c: Config, w: World, ids: seq<string>, run: seq<Action>, t: nat)
    returns (i: nat, j: nat, k: nat, l: nat)
    requires t < |ids| && Exec(c, Begin(w, ids), run).tasks[t].phase.Done?
    ensures i < j < k < l < |run|
    ensures var s := Exec(c, Begin(w, ids), run); var p := s.tasks[t].phase;
            var x := Cleared(p.m, p.result.payload, p.result.eventsReplayed);
            && Vouched(c, Begin(w, ids), run, ids[t], x, i, j, k, l)
            && Reports(ids[t], x, p.result)
            && (forall y | y in s.writes :: y.task == t <==>
                  y == RestoreInterleaving.Write(t, TrustPlace(c, p.result.nodeId),
                                                 c.encode(c.className(p.result.grantedTrustClass))))
            && exists y :: y in s.writes && y.task == t
  {
    hide Exec, Vouched, AllClear, TrustPlace, RightClass, Granted;
    RunBacked(c, w, ids, run, t);
    Arbitration.OneWriteEach(c, w, ids, run, t);
    var p := Exec(c, Begin(w, ids), run).tasks[t].phase;
    forall g
      ensures RightClass(p.m.body, g) <==> g == Granted(p.m.body)
    {
      GrantedIsRight(p.m.body, g);
    }
    i, j, k, l := ClearMeans(c, Begin(w, ids), run, ids[t], Cleared(p.m, p.result.payload, p.result.eventsReplayed));
  }

  /** The trust ceiling's other half: if the last writer of a trust key came by a path the orchestrator names,
      the attestation its manifest refers to was in the store at an earlier moment, under its own key, and the
      trust key holds degraded or, for a quarantined foreign host, quarantined. */
  lemma CrossHostWriterWasAttested(c: Config, w: World, ids: seq<string>, run: seq<Action>, node: string,
                                   y: RestoreInterleaving.Write)
    returns (t: nat, j: nat)
    requires Arbitration.Undisturbed(c, Begin(w, ids), run)
    requires y in Exec(c, Begin(w, ids), run).writes && y.key == TrustPlace(c, node)
    ensures var s := Exec(c, Begin(w, ids), run);
            && t < |s.tasks| && s.tasks[t].phase.Done? && TrustPlace(c, node) in s.world.meta
            && var b := s.tasks[t].phase.m.body;
               !b.restorePath.OtherPath? ==>
                 && s.world.meta[TrustPlace(c, node)] ==
                    c.encode(c.className(if b.restorePath == QuarantinedForeignHost then Quarantined else Degraded))
                 && b.attestationRef.Some? && b.attestationRef.value != "" && j < |run|
                 && "/" + c.ns + "/attestations/" + b.attestationRef.value in At(c, Begin(w, ids), run, j).world.meta
    ensures exists i: nat :: var s := Exec(c, Begin(w, ids), run);
              Arbitration.LastTo(s.writes, i, TrustPlace(c, node)) && s.writes[i].task == t
  {
    hide Exec, TakeTurn, TrustPlace;
    t := Arbitration.TrustCeiling(c, w, ids, run, node, y);
    var i, jj, k, l := SuccessWasVouched(c, w, ids, run, t);
    j := jj;
  }

  // ------------------------------------------------------------------
  // What a manifest hash binds
  // ------------------------------------------------------------------

  const HASH_LENGTH := 64

  function LastPart(s: string): string {
    if |s| <= HASH_LENGTH then s else s[|s| - HASH_LENGTH..]
  }

  /** The hash does not collide on these two inputs. */
  ghost predicate NoCollision<T(!new)>(hash: T -> string, a: T, b: T) {
    hash(a) == hash(b) ==> a == b
  }

  /** Binding: two restores that succeeded, in whatever runs over whatever stores, with manifest hashes
      that share their last 64 characters, agree on every other field of the manifest, unless their
      manifests are a collision of the hash; and if a payload hash is declared they returned the same
      bytes, unless those are a collision. */
  lemma HashBindsManifestAndPayload(c: Config, w1: World, ids1: seq<string>, run1: seq<Action>, t1: nat,
                                    w2: World, ids2: seq<string>, run2: seq<Action>, t2: nat)
    requires t1 < |ids1| && t2 < |ids2|
    requires forall b :: |c.hashBody(b)| == HASH_LENGTH
    requires var p, q := Exec(c, Begin(w1, ids1), run1).tasks[t1].phase, Exec(c, Begin(w2, ids2), run2).tasks[t2].phase;
             && p.Done? && q.Done? && LastPart(p.m.manifestHash) == LastPart(q.m.manifestHash)
             && NoCollision(c.hashBody, p.m.body, q.m.body)
             && NoCollision(c.hashBytes, p.result.payload, q.result.payload)
    ensures var p, q := Exec(c, Begin(w1, ids1), run1).tasks[t1].phase, Exec(c, Begin(w2, ids2), run2).tasks[t2].phase;
            p.m.body == q.m.body && (p.m.body.payloadHash != "" ==> p.result.payload == q.result.payload)
  {
    hide Exec;
    var p, q := Exec(c, Begin(w1, ids1), run1).tasks[t1].phase, Exec(c, Begin(w2, ids2), run2).tasks[t2].phase;
    var _, _, _, _ := SuccessWasVouched(c, w1, ids1, run1, t1);
    var _, _, _, _ := SuccessWasVouched(c, w2, ids2, run2, t2);
    assert c.hashBody(p.m.body) == LastPart(p.m.manifestHash);
    assert c.hashBody(q.m.body) == LastPart(q.m.manifestHash);
    if p.m.body.payloadHash != "" {
      DropPrefix("sha256:", c.hashBytes(p.result.payload), c.hashBytes(q.result.payload));
    }
  }
}
