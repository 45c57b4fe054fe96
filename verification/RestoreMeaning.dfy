/** What a restore promises, said of the stores' own keys and of the manifest's own fields. Nothing here is
    stated through the steps that compute it: every key, prefix, class and limit is written out again. */
module RestoreMeaning {
  import opened Wrappers
  import opened MetadataStores
  import opened RestoreModel

  // ------------------------------------------------------------------
  // Where etcd keeps things
  // ------------------------------------------------------------------

  ghost function ManifestPlace(c: Config, id: string): string {
    "/" + c.ns + "/manifests/" + id
  }

  ghost function AttestationPlace(c: Config, ref: string): string {
    "/" + c.ns + "/attestations/" + ref
  }

  ghost function TrustPlace(c: Config, node: string): string {
    "/" + c.ns + "/nodes/" + node + "/trust"
  }

  lemma KeysArePlaces(c: Config, s: string)
    ensures ManifestKey(c, s) == ManifestPlace(c, s)
    ensures AttestationKey(c, s) == AttestationPlace(c, s)
    ensures TrustKey(c, s) == TrustPlace(c, s)
  {
    FullKeyPlain(c.ns, "manifests/" + s);
    FullKeyPlain(c.ns, "attestations/" + s);
    FullKeyPlain(c.ns, "nodes/" + s + "/trust");
    assert "/" + c.ns + "/" + ("manifests/" + s) == ManifestPlace(c, s);
    assert "/" + c.ns + "/" + ("attestations/" + s) == AttestationPlace(c, s);
    assert "/" + c.ns + "/" + ("nodes/" + s + "/trust") == TrustPlace(c, s);
  }

  // ------------------------------------------------------------------
  // What is demanded, and what is granted
  // ------------------------------------------------------------------

  /** The field is missing or holds the empty text. */
  ghost predicate Blank(field: Option<string>) {
    field == None || field == Some("")
  }

  /** The class that a manifest earns: the first three paths start degraded and a quarantined foreign host
      stays quarantined, whatever was requested; on any other path the request is granted. */
  ghost predicate RightClass(b: Body, t: TrustClass) {
    match b.restorePath
    case CrossHost => t == Degraded
    case K8sStatefulRestore => t == Degraded
    case CriuMigration => t == Degraded
    case QuarantinedForeignHost => t == Quarantined
    case OtherPath(_) => t == b.requestedTrustClass
  }

  /** The manifest hash is the hash of the other fields, after any prefix such as the name of the algorithm. */
  ghost predicate HashFits(c: Config, m: Manifest) {
    exists prefix :: m.manifestHash == prefix + c.hashBody(m.body)
  }

  /** The places in the stream that hold an event after the cursor. */
  ghost function Later(events: seq<int>, after: int): set<nat> {
    set i: nat | i < |events| && events[i] > after
  }

  /** The cursor can be read and `n` events after it are replayed, at least one and at most a thousand. */
  ghost predicate Continues(c: Config, events: seq<int>, cursor: string, n: nat) {
    && c.parseCursor(cursor).Some?
    && var later := Later(events, c.parseCursor(cursor).value);
       later != {} && n == if |later| <= 1000 then |later| else 1000
  }

  /** Everything a restore must find, said of the stores as they were at four moments: the manifest in
      `wi`, the attestation in `wj`, the payload in `wk`, the events in `wl`. */
  ghost predicate Warranted(c: Config, id: string, x: Cleared, wi: World, wj: World, wk: World, wl: World) {
    var m, b := x.manifest, x.manifest.body;
    && ManifestPlace(c, id) in wi.meta && c.decode(wi.meta[ManifestPlace(c, id)]) == Some(m)
    && m.manifestHash != "" && HashFits(c, m)
    && (!b.restorePath.OtherPath? ==> !Blank(b.attestationRef))
    && (!Blank(b.attestationRef) ==> AttestationPlace(c, b.attestationRef.value) in wj.meta)
    && b.checkpointId in wk.checkpoints && wk.checkpoints[b.checkpointId] == x.payload
    && (b.payloadHash == "" || b.payloadHash == "sha256:" + c.hashBytes(x.payload))
    && (if Blank(b.causalCursor) then x.replayed == 0 else Continues(c, wl.events, b.causalCursor.value, x.replayed))
    && (b.restorePath == CriuMigration ==> !Blank(b.admissibilityPolicyRef))
  }

  /** The trust key may be written: the manifest carries no token, or the key holds the token it carries. */
  ghost predicate Claimable(c: Config, data: Data, b: Body) {
    || Blank(b.splitBrainToken)
    || (TrustPlace(c, b.nodeId) in data && data[TrustPlace(c, b.nodeId)] == c.encode(b.splitBrainToken.value))
  }

  /** The metadata store with a node's trust key set to a class. */
  ghost function WithTrust(c: Config, data: Data, node: string, t: TrustClass): Data {
    data[TrustPlace(c, node) := c.encode(c.className(t))]
  }

  /** A result that tells what was asked for, what was loaded, and the class earned. */
  ghost predicate Reports(id: string, x: Cleared, r: RestoreResult) {
    && r.manifestId == id
    && r.nodeId == x.manifest.body.nodeId && r.restorePath == x.manifest.body.restorePath
    && r.payload == x.payload && r.eventsReplayed == x.replayed
    && RightClass(x.manifest.body, r.grantedTrustClass)
  }

  // ------------------------------------------------------------------
  // The steps mean that
  // ------------------------------------------------------------------

  /** A hash is accepted exactly if it is some prefix followed by the computed one. */
  lemma HashAcceptedIff(c: Config, m: Manifest)
    ensures VerifyHashes(c, m).Ok? <==> HashFits(c, m)
  {
    var h, computed := m.manifestHash, c.hashBody(m.body);
    if EndsWith(h, computed) {
      assert h == h[..|h| - |computed|] + computed;
    }
    if prefix :| h == prefix + computed {
      assert h[|h| - |computed|..] == computed;
    }
  }

  lemma PresentIsNotBlank(field: Option<string>)
    ensures Present(field) <==> !Blank(field)
  {
  }

  lemma AttestationPassesIff(c: Config, w: World, m: Manifest)
    ensures VerifyAttestation(c, w, m).Ok? <==>
            && (!m.body.restorePath.OtherPath? ==> !Blank(m.body.attestationRef))
            && (!Blank(m.body.attestationRef) ==> AttestationPlace(c, m.body.attestationRef.value) in w.meta)
  {
    if m.body.attestationRef.Some? {
      KeysArePlaces(c, m.body.attestationRef.value);
    }
  }

  lemma GrantedIsRight(b: Body, t: TrustClass)
    ensures t == Granted(b) <==> RightClass(b, t)
  {
  }

  lemma MayPromoteIff(c: Config, w: World, m: Manifest)
    ensures MayPromote(c, w, m) <==> Claimable(c, w.meta, m.body)
  {
    KeysArePlaces(c, m.body.nodeId);
  }

  lemma {:induction false} RisingCount(idx: seq<nat>, places: set<nat>)
    requires forall k, l | 0 <= k < l < |idx| :: idx[k] < idx[l]
    requires forall i :: i in places <==> i in idx
    ensures |places| == |idx|
    decreases |idx|
  {
    if idx == [] {
      assert places == {};
    } else {
      var last, rest := idx[|idx| - 1], idx[..|idx| - 1];
      assert idx == rest + [last];
      RisingCount(rest, places - {last});
    }
  }

  lemma ReadCount(events: seq<int>, after: int, limit: nat)
    ensures |ReadEvents(events, after, limit)| ==
            if |Later(events, after)| <= limit then |Later(events, after)| else limit
  {
    var idx := EventsAfterMeaning(events, after, limit);
    forall i: nat
      ensures i in Later(events, after) <==> i in idx
    {
    }
    RisingCount(idx, Later(events, after));
  }

  lemma ReplayIffContinues(c: Config, w: World, m: Manifest, n: nat)
    ensures ReplayEvents(c, w, m) == Ok(n) <==>
            if Blank(m.body.causalCursor) then n == 0 else Continues(c, w.events, m.body.causalCursor.value, n)
  {
    hide ReadEvents;
    if !Blank(m.body.causalCursor) && c.parseCursor(m.body.causalCursor.value).Some? {
      var after := c.parseCursor(m.body.causalCursor.value).value;
      ReadCount(w.events, after, REPLAY_LIMIT);
      assert |Later(w.events, after)| == 0 <==> Later(w.events, after) == {};
      assert |ReadEvents(w.events, after, REPLAY_LIMIT)| == 0 <==> ReadEvents(w.events, after, REPLAY_LIMIT) == [];
    }
  }

  /** The four readings, each at its own moment, pass exactly if the stores of those moments warrant it. */
  lemma StepsWarrant(c: Config, id: string, x: Cleared, wi: World, wj: World, wk: World, wl: World)
    ensures Warranted(c, id, x, wi, wj, wk, wl) <==>
            && LoadManifest(c, wi, id) == Ok(x.manifest) && VerifyHashes(c, x.manifest).Ok?
            && VerifyAttestation(c, wj, x.manifest).Ok? && FetchPayload(c, wk, x.manifest) == Ok(x.payload)
            && ReplayEvents(c, wl, x.manifest) == Ok(x.replayed) && CheckCriu(x.manifest).Ok?
  {
    hide VerifyHashes, VerifyAttestation, ReplayEvents, HashFits, Continues, AttestationPlace, Blank;
    KeysArePlaces(c, id);
    HashAcceptedIff(c, x.manifest);
    AttestationPassesIff(c, wj, x.manifest);
    ReplayIffContinues(c, wl, x.manifest, x.replayed);
    PresentIsNotBlank(x.manifest.body.admissibilityPolicyRef);
  }

  // ------------------------------------------------------------------
  // Success
  // ------------------------------------------------------------------

  /** The checks pass with exactly what the stores warrant. */
  lemma ChecksIffWarranted(c: Config, w: World, id: string, x: Cleared)
    ensures Checks(c, w, id) == Ok(x) <==> Warranted(c, id, x, w, w, w, w)
  {
    hide Warranted, LoadManifest, VerifyHashes, VerifyAttestation, FetchPayload, ReplayEvents, CheckCriu;
    StepsWarrant(c, id, x, w, w, w, w);
  }

  /** A restore with nobody else about succeeds exactly if the stores warrant it and the trust key may be
      written. Then it writes that one key, with the class the manifest earns, and reports just that class;
      otherwise it changes nothing. */
  lemma RestoreSucceedsIff(c: Config, w: World, id: string)
    ensures var (w', r) := Restore(c, w, id);
            && (r.Ok? <==> exists x :: Warranted(c, id, x, w, w, w, w) && Claimable(c, w.meta, x.manifest.body))
            && (r.Err? ==> w' == w)
    ensures forall x | Warranted(c, id, x, w, w, w, w) && Claimable(c, w.meta, x.manifest.body) ::
              var (w', r) := Restore(c, w, id);
              && r.Ok? && Reports(id, x, r.value)
              && w' == w.(meta := WithTrust(c, w.meta, r.value.nodeId, r.value.grantedTrustClass))
  {
    hide Warranted, Checks, Claimable, TrustPlace, Granted, RightClass, MayPromote;
    forall x
      ensures Warranted(c, id, x, w, w, w, w) <==> Checks(c, w, id) == Ok(x)
    {
      ChecksIffWarranted(c, w, id, x);
    }
    if Checks(c, w, id).Ok? {
      var x := Checks(c, w, id).value;
      MayPromoteIff(c, w, x.manifest);
      GrantedIsRight(x.manifest.body, Granted(x.manifest.body));
      KeysArePlaces(c, x.manifest.body.nodeId);
    }
  }

  // ------------------------------------------------------------------
  // Failure
  // ------------------------------------------------------------------

  /** What is wrong with the stores when a restore raises this error. */
  ghost predicate Fault(c: Config, w: World, id: string, e: RestoreError) {
    var place := ManifestPlace(c, id);
    match e
    case ManifestNotFound => place !in w.meta
    case ManifestUnreadable => place in w.meta && c.decode(w.meta[place]) == None
    case _ => place in w.meta && c.decode(w.meta[place]).Some? && FaultOf(c, w, c.decode(w.meta[place]).value, e)
  }

  /** The same, once there is a manifest to look at. */
  ghost predicate FaultOf(c: Config, w: World, m: Manifest, e: RestoreError) {
    var b := m.body;
    match e
    case ManifestUnsigned => m.manifestHash == ""
    case ManifestHashMismatch => !HashFits(c, m)
    case AttestationRequired => !b.restorePath.OtherPath? && Blank(b.attestationRef)
    case AttestationNotFound =>
      !Blank(b.attestationRef) && AttestationPlace(c, b.attestationRef.value) !in w.meta
    case CheckpointNotFound => b.checkpointId !in w.checkpoints
    case PayloadHashMismatch =>
      && b.checkpointId in w.checkpoints && b.payloadHash != ""
      && b.payloadHash != "sha256:" + c.hashBytes(w.checkpoints[b.checkpointId])
    case CursorUnreadable => !Blank(b.causalCursor) && c.parseCursor(b.causalCursor.value) == None
    case ReplayEmpty =>
      && !Blank(b.causalCursor) && c.parseCursor(b.causalCursor.value).Some?
      && Later(w.events, c.parseCursor(b.causalCursor.value).value) == {}
    case CriuNotGated => b.restorePath == CriuMigration && Blank(b.admissibilityPolicyRef)
    case SplitBrainLost => !Claimable(c, w.meta, b)
    case _ => false
  }

  /** The order in which faults are looked for. */
  ghost function Rank(e: RestoreError): nat {
    match e
    case ManifestNotFound => 0
    case ManifestUnreadable => 1
    case ManifestUnsigned => 2
    case ManifestHashMismatch => 3
    case AttestationRequired => 4
    case AttestationNotFound => 5
    case CheckpointNotFound => 6
    case PayloadHashMismatch => 7
    case CursorUnreadable => 8
    case ReplayEmpty => 9
    case CriuNotGated => 10
    case SplitBrainLost => 11
  }

  ghost predicate FirstFault(c: Config, w: World, id: string, e: RestoreError) {
    Fault(c, w, id, e) && forall f | Rank(f) < Rank(e) :: !Fault(c, w, id, f)
  }

  /** What each step raises, and when. */
  lemma AttestationRaises(c: Config, w: World, m: Manifest)
    ensures VerifyAttestation(c, w, m) ==
            if FaultOf(c, w, m, AttestationRequired) then Err(AttestationRequired)
            else if FaultOf(c, w, m, AttestationNotFound) then Err(AttestationNotFound) else Ok(())
  {
    if m.body.attestationRef.Some? {
      KeysArePlaces(c, m.body.attestationRef.value);
    }
  }

  lemma PayloadRaises(c: Config, w: World, m: Manifest)
    ensures var r := FetchPayload(c, w, m);
            && (r == Err(CheckpointNotFound) <==> FaultOf(c, w, m, CheckpointNotFound))
            && (r == Err(PayloadHashMismatch) <==> FaultOf(c, w, m, PayloadHashMismatch))
            && (r.Err? ==> r.error in {CheckpointNotFound, PayloadHashMismatch})
  {
  }

  lemma ReplayRaises(c: Config, w: World, m: Manifest)
    ensures var r := ReplayEvents(c, w, m);
            && (r == Err(CursorUnreadable) <==> FaultOf(c, w, m, CursorUnreadable))
            && (r == Err(ReplayEmpty) <==> FaultOf(c, w, m, ReplayEmpty))
            && (r.Err? ==> r.error in {CursorUnreadable, ReplayEmpty})
  {
    hide ReadEvents;
    if !Blank(m.body.causalCursor) && c.parseCursor(m.body.causalCursor.value).Some? {
      var after := c.parseCursor(m.body.causalCursor.value).value;
      ReadCount(w.events, after, REPLAY_LIMIT);
      assert |Later(w.events, after)| == 0 <==> Later(w.events, after) == {};
      assert |ReadEvents(w.events, after, REPLAY_LIMIT)| == 0 <==> ReadEvents(w.events, after, REPLAY_LIMIT) == [];
    }
  }

  lemma LoadRaises(c: Config, w: World, id: string)
    ensures var place := ManifestPlace(c, id);
            LoadManifest(c, w, id) ==
            if place !in w.meta then Err(ManifestNotFound)
            else if c.decode(w.meta[place]) == None then Err(ManifestUnreadable)
            else if FaultOf(c, w, c.decode(w.meta[place]).value, ManifestUnsigned) then Err(ManifestUnsigned)
            else Ok(c.decode(w.meta[place]).value)
  {
    KeysArePlaces(c, id);
  }

  lemma OtherSteps(c: Config, w: World, m: Manifest)
    ensures VerifyHashes(c, m) == if FaultOf(c, w, m, ManifestHashMismatch) then Err(ManifestHashMismatch) else Ok(())
    ensures CheckCriu(m) == if FaultOf(c, w, m, CriuNotGated) then Err(CriuNotGated) else Ok(())
    ensures PromoteTrust(c, w, m).1 ==
            if FaultOf(c, w, m, SplitBrainLost) then Err(SplitBrainLost) else Ok(Granted(m.body))
  {
    HashAcceptedIff(c, m);
    MayPromoteIff(c, w, m);
  }

  /** Faults 2 to 11 of a manifest that could be read, as the steps look for them. */
  lemma ManifestRaises(c: Config, w: World, id: string, f: RestoreError)
    requires ManifestPlace(c, id) in w.meta && c.decode(w.meta[ManifestPlace(c, id)]).Some?
    requires 2 <= Rank(f)
    ensures var m := c.decode(w.meta[ManifestPlace(c, id)]).value; var r := Restore(c, w, id).1;
            && (r.Ok? ==> !FaultOf(c, w, m, f))
            && (r.Err? ==> Rank(r.error) >= 2 && FaultOf(c, w, m, r.error))
            && (r.Err? && Rank(f) < Rank(r.error) ==> !FaultOf(c, w, m, f))
  {
    hide FaultOf, LoadManifest, VerifyHashes, VerifyAttestation, FetchPayload, ReplayEvents, CheckCriu,
      PromoteTrust, ManifestPlace;
    var m := c.decode(w.meta[ManifestPlace(c, id)]).value;
    LoadRaises(c, w, id);
    OtherSteps(c, w, m);
    AttestationRaises(c, w, m);
    PayloadRaises(c, w, m);
    ReplayRaises(c, w, m);
  }

  lemma RankTellsApart(e: RestoreError, f: RestoreError)
    requires Rank(e) == Rank(f)
    ensures e == f
  {
  }

  lemma RaisedIsFirst(c: Config, w: World, id: string)
    ensures var r := Restore(c, w, id).1;
            && (r.Err? ==> FirstFault(c, w, id, r.error))
            && (r.Ok? ==> forall f :: !Fault(c, w, id, f))
  {
    hide FaultOf, LoadManifest, ManifestPlace;
    LoadRaises(c, w, id);
    var place := ManifestPlace(c, id);
    if place in w.meta && c.decode(w.meta[place]).Some? {
      hide Restore;
      ManifestRaises(c, w, id, SplitBrainLost);
      forall f | 2 <= Rank(f)
        ensures var r := Restore(c, w, id).1;
                (r.Ok? || Rank(f) < Rank(r.error)) ==> !FaultOf(c, w, c.decode(w.meta[place]).value, f)
      {
        ManifestRaises(c, w, id, f);
      }
    }
  }

  /** A restore that cannot succeed raises the first fault there is, in the order of its steps, and one that
      finds no fault succeeds. */
  lemma RaisesFirstFault(c: Config, w: World, id: string, e: RestoreError)
    ensures Restore(c, w, id).1 == Err(e) <==> FirstFault(c, w, id, e)
    ensures Restore(c, w, id).1.Ok? <==> forall f :: !Fault(c, w, id, f)
  {
    hide Restore, Fault, Rank;
    RaisedIsFirst(c, w, id);
    var r := Restore(c, w, id).1;
    if r.Err? && Rank(r.error) == Rank(e) {
      RankTellsApart(e, r.error);
    }
  }
}
